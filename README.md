# dynas search-space parameter codec

This project models the parameter manager of the dynas NAS approach in
neural-compressor. That component translates between the two views of a
supernet sub-network.

- **The pymoo vector.** The optimizer works on integer vectors. Each
  position holds an index into the ordered list of values allowed at that
  position.
- **The architecture dictionary.** The supernet is configured by a
  dictionary. It maps each parameter name (`ks`, `e`, `d`,
  `encoder_ffn_embed_dim`, ...) to a list of concrete values.

The operations modelled are these:

- `translate2param` decodes a vector into a dictionary by positional index
  lookup.
- `translate2pymoo` encodes a dictionary into a vector by searching each
  value's index.
- `onehot_generic` encodes a vector as concatenated indicator blocks, one
  block per position, each as wide as that position's number of values.
- `random_samples` draws vectors in range.

The model is generic over a search-space table. A table is an ordered list
of fields, and each field has a name, a number of vector positions, and an
ordered list of distinct values. It is instantiated with the two supernets
the tests exercise:

- `ofa_mbv3_d234_e346_k357_w1.2`: 45 positions, one-hot length 135.
- `transformer_lt_wmt_en_de`: 39 positions, one-hot length 100.

Files:

- `SearchSpace.dfy`: tables, vectors, dictionaries, validity, per-position
  cardinalities, one-hot length.
- `ParameterCodec.dfy`: `translate2param` (`Decode`), `translate2pymoo`
  (`Encode`), their error-reporting forms, and the round trips.
- `OneHotEncoding.dfy`: `onehot_generic` (`OneHot`) and the block
  invariant.
- `RandomSampling.dfy`: `random_samples`, with the random source as a
  parameter.
- `Mbv3Space.dfy`, `TransformerSpace.dfy`: the two supernets and their
  test vectors.

The source of the implementing module (the dynas supernet parameter
manager) is not available; its behaviour is rebuilt here from the test
vectors in test/nas/test_nas.py. The tests give two test cases each for
translate2param, translate2pymoo and onehot_generic; random_samples is only
called, and its first sample decoded. The model assumes the behaviour the
tests show holds on every input: the codec is a plain per-position index
lookup.

The transformer space leaves some values unpinned by any test vector:

- the second embedding width of the encoder and of the decoder;
- the decoder depth list apart from its fourth entry, which is 3;
- the third `decoder_arbitrary_ende_attn` choice.

These are parameters (`TransformerFree`). `Admissible` requires that the
decoder depth list has six entries with 3 at index 3, and that every value
list stays free of repetitions. Every transformer lemma holds for all such
completions, and `AdmissibleWitness` shows that one exists.

## Model

| member | source | states |
|---|---|---|
| ParameterCodec.IndexOf | test/nas/test_nas.py:305-335 | the reverse search returns an index holding the value and no earlier index holds it (Python's `list.index`) |
| ParameterCodec.IndexOfDistinct | test/nas/test_nas.py:305-335 | in a list without repetitions, searching the value at index k returns k |
| ParameterCodec.EncodeField | test/nas/test_nas.py:309-318 | each value of a field's list becomes an index in range whose value is that value |
| ParameterCodec.EncodeDecodeField | test/nas/test_nas.py:305-335 | with distinct values, encoding a decoded run gives the run back |
| ParameterCodec.Decode | test/nas/test_nas.py:270-302 | translate2param on a valid vector gives a dictionary whose keys are exactly the table's field names, with one allowed value per position of each field |
| ParameterCodec.DecodeAt | test/nas/test_nas.py:273-283 | entry j of field i in the decoded dictionary is field i's value at the index stored at vector position offset(i)+j |
| ParameterCodec.DecodeEntry | test/nas/test_nas.py:273-283 | field i's decoded entry is the first run looked up when i is 0, and otherwise the entry decoded from the rest of the vector |
| ParameterCodec.OffsetTail | test/nas/test_nas.py:229-232 | field i starts the first field's count after where field i-1 of the remaining fields starts |
| ParameterCodec.Encode | test/nas/test_nas.py:305-335 | translate2pymoo on a valid dictionary gives a vector that is in range at every position |
| ParameterCodec.EncodeFirstField | test/nas/test_nas.py:314-318 | translate2pymoo emits the first field's indices, then the encoding of the other fields |
| ParameterCodec.EncodeFrame | test/nas/test_nas.py:305-335 | translate2pymoo reads only the entries of the table's fields |
| ParameterCodec.DecodeEncodeRestrict | test/nas/test_nas.py:270-335 | translate2param(translate2pymoo(c)) is c restricted to the table's fields |
| ParameterCodec.DecodeEncode | test/nas/test_nas.py:270-335 | translate2param(translate2pymoo(c)) == c for every valid dictionary holding exactly the table's fields |
| ParameterCodec.DecodeFirstField | test/nas/test_nas.py:273-283 | translate2param fills the first field from the first run and the other fields from the rest of the vector |
| ParameterCodec.EncodeTailOfDecode | test/nas/test_nas.py:270-335 | encoding the later fields of a decoded vector depends only on the rest of the vector |
| ParameterCodec.EncodeHeadOfDecode | test/nas/test_nas.py:270-335 | encoding the first field of a decoded vector gives back that field's run |
| ParameterCodec.EncodeDecode | test/nas/test_nas.py:270-335 | translate2pymoo(translate2param(v)) == v for every valid vector |
| ParameterCodec.EncodeSplitsAt | test/nas/test_nas.py:314-318 | a vector whose first run and rest match the first field's indices and the other fields' encoding is the encoding |
| ParameterCodec.DecodeInjective | test/nas/test_nas.py:270-302 | two valid vectors that decode to the same dictionary are equal |
| ParameterCodec.EncodeAppend | test/nas/test_nas.py:305-335 | translate2pymoo over two tables one after the other gives the two vectors one after the other |
| ParameterCodec.EncodeAppendStep | test/nas/test_nas.py:305-335 | the encodings of t1 and of t1 followed by t2 both start with t1's first field's indices, and the dictionary stays valid for the remaining fields |
| ParameterCodec.EncodeThreeFields | test/nas/test_nas.py:305-335 | translate2pymoo over three fields gives their three index runs in order |
| ParameterCodec.EncodeThreeTables | test/nas/test_nas.py:305-335 | a dictionary valid for three tables together is valid for each, and the encoding is the three encodings in order |
| ParameterCodec.Translate2Param | test/nas/test_nas.py:270-302 | a vector is rejected (invalid vector) exactly when it has the wrong length or some coordinate is outside its position's range; an accepted vector decodes to a dictionary of exactly the table's fields that encodes back to the vector |
| ParameterCodec.Translate2Pymoo | test/nas/test_nas.py:305-335 | a dictionary is rejected exactly when a field is missing (missing field) or a list has the wrong length or a disallowed value (unknown value); an accepted one encodes to a valid vector that decodes back to its entries for the table's fields |
| ParameterCodec.TranslateRoundTrips | test/nas/test_nas.py:270-335 | a vector translate2param accepts is accepted by translate2pymoo on the output and comes back unchanged; a dictionary translate2pymoo accepts whose keys are exactly the table's field names comes back unchanged through translate2param |
| SearchSpace.Names | test/nas/test_nas.py:277-281 | every field's name is among the table's names |
| SearchSpace.WellFormedTail | test/nas/test_nas.py:270-302 | dropping the first field keeps the table well formed, and the first name differs from all later names |
| SearchSpace.DimsLength | test/nas/test_nas.py:229-232 | there is one cardinality per vector position |
| SearchSpace.DimsPositive | test/nas/test_nas.py:205-206 | every position of a well-formed table has at least one value |
| SearchSpace.SumRepeat | test/nas/test_nas.py:234-243 | a field's blocks take count × cardinality bits |
| SearchSpace.SumAppend | test/nas/test_nas.py:234-243 | sums over concatenated cardinality lists add up |
| SearchSpace.OneHotLengthIsSumOfDims | test/nas/test_nas.py:234-243 | the one-hot length is the sum of the cardinalities over all positions |
| SearchSpace.ValidVectorSplit | test/nas/test_nas.py:229-232 | a valid vector splits into an in-range first run and a valid vector for the other fields |
| SearchSpace.ValidConfigTail | test/nas/test_nas.py:277-281 | a dictionary valid for a table is valid for its later fields |
| SearchSpace.DimsAt | test/nas/test_nas.py:229-232 | field i occupies the positions from offset(i) on, each carrying field i's cardinality |
| SearchSpace.DimsAppend | test/nas/test_nas.py:229-232 | the cardinalities of two tables one after the other are the two lists one after the other |
| SearchSpace.TableAppend | test/nas/test_nas.py:229-243 | positions, one-hot length and names of two tables one after the other add up |
| SearchSpace.TableOfThree | test/nas/test_nas.py:229-243 | positions, one-hot length and names of a three-field table |
| SearchSpace.ValidConfigAppend | test/nas/test_nas.py:277-281 | a dictionary is valid for two tables together exactly when it is valid for each |
| SearchSpace.InRangeAppend | test/nas/test_nas.py:229-232 | in-range runs one after the other are in range for the cardinalities one after the other |
| OneHotEncoding.OneHotBlocks | test/nas/test_nas.py:234-243 | the blocks of all positions are as long as the sum of the cardinalities |
| OneHotEncoding.OneHot | test/nas/test_nas.py:225-268 | onehot_generic's output length is the sum over fields of positions × values (135 and 100 for the two spaces) |
| OneHotEncoding.BlockSum | test/nas/test_nas.py:234-243 | a block sums to 1 when its offset is inside it, and to 0 otherwise |
| OneHotEncoding.OneHotBlocksAt | test/nas/test_nas.py:234-243 | the slice of the output belonging to position i is position i's block |
| OneHotEncoding.BlockIndicator | test/nas/test_nas.py:234-243 | position i's block has its 1 at offset v[i] and sums to 1 |
| OneHotEncoding.OneHotBlock | test/nas/test_nas.py:225-268 | the block of position i starts after the blocks of the earlier positions, is as wide as i's cardinality, is the indicator of v[i] and sums to 1 |
| OneHotEncoding.OneHotBits | test/nas/test_nas.py:234-243 | every output bit is 0 or 1 |
| OneHotEncoding.OneHotInjective | test/nas/test_nas.py:225-268 | different valid vectors have different one-hot encodings |
| OneHotEncoding.OneHotBlocksAppend | test/nas/test_nas.py:234-243 | the blocks of two runs of positions are the two block sequences one after the other |
| OneHotEncoding.OneHotBlocksSplit | test/nas/test_nas.py:234-243 | the blocks split at any position into the blocks of the two parts |
| OneHotEncoding.OneHotAppend | test/nas/test_nas.py:234-243 | onehot_generic of two tables one after the other is the two encodings one after the other |
| OneHotEncoding.OneHotSingle | test/nas/test_nas.py:234-243 | onehot_generic of a one-field table is that field's blocks |
| OneHotEncoding.OneHotThreeFields | test/nas/test_nas.py:250-256 | onehot_generic of a three-field table is the three fields' blocks in order |
| RandomSampling.Sample | test/nas/test_nas.py:205-206 | a sampled vector is valid, so translate2param accepts it |
| RandomSampling.RandomSamples | test/nas/test_nas.py:205-206 | random_samples(n) gives n vectors, each valid for translate2param |
| RandomSampling.SampleReachesEveryVector | test/nas/test_nas.py:205-206 | every valid vector can be drawn |
| Mbv3Space.Mbv3Shape | test/nas/test_nas.py:229-243 | the mbv3 table is well formed, its names are ks, e and d, it has 45 positions and a one-hot length of 135 |
| Mbv3Space.Mbv3ConfigValid | test/nas/test_nas.py:309-313 | the expected mbv3 dictionary is valid for the mbv3 table |
| Mbv3Space.Mbv3FieldIndices | test/nas/test_nas.py:309-318 | each expected mbv3 list encodes to its run of the test vector |
| Mbv3Space.Mbv3Translate2Pymoo | test/nas/test_nas.py:305-318 | translate2pymoo of the expected mbv3 dictionary is the 45-entry test vector |
| Mbv3Space.Mbv3Translate2Param | test/nas/test_nas.py:270-283 | translate2param of the mbv3 test vector is the expected dictionary |
| Mbv3Space.Mbv3KsChunk0 | test/nas/test_nas.py:234-243 | blocks of kernel-size positions 0-4 |
| Mbv3Space.Mbv3KsChunk1 | test/nas/test_nas.py:234-243 | blocks of kernel-size positions 5-9 |
| Mbv3Space.Mbv3KsChunk2 | test/nas/test_nas.py:234-243 | blocks of kernel-size positions 10-14 |
| Mbv3Space.Mbv3KsChunk3 | test/nas/test_nas.py:234-243 | blocks of kernel-size positions 15-19 |
| Mbv3Space.Mbv3EChunk0 | test/nas/test_nas.py:234-243 | blocks of expansion-ratio positions 0-4 |
| Mbv3Space.Mbv3EChunk1 | test/nas/test_nas.py:234-243 | blocks of expansion-ratio positions 5-9 |
| Mbv3Space.Mbv3EChunk2 | test/nas/test_nas.py:234-243 | blocks of expansion-ratio positions 10-14 |
| Mbv3Space.Mbv3EChunk3 | test/nas/test_nas.py:234-243 | blocks of expansion-ratio positions 15-19 |
| Mbv3Space.FourRuns | test/nas/test_nas.py:234-243 | the blocks of four runs of five positions are the four block sequences in order |
| Mbv3Space.Mbv3KsBits | test/nas/test_nas.py:234-239 | the 60 bits of the kernel-size blocks |
| Mbv3Space.Mbv3EBits | test/nas/test_nas.py:238-242 | the 60 bits of the expansion-ratio blocks |
| Mbv3Space.Mbv3DBits | test/nas/test_nas.py:241-242 | the 15 bits of the depth blocks |
| Mbv3Space.Mbv3RunsInRange | test/nas/test_nas.py:229-232 | each run of the mbv3 test vector is in range |
| Mbv3Space.Mbv3OneHotGeneric | test/nas/test_nas.py:225-268 | onehot_generic of the mbv3 test vector is the expected 135 bits |
| Mbv3Space.Mbv3NoTruncation | test/nas/test_nas.py:279-283 | every valid mbv3 vector decodes to 20 kernel sizes, 20 expansion ratios and 5 depths, whatever the depths |
| Mbv3Space.Mbv3RejectsOutOfRange | test/nas/test_nas.py:270-302 | a vector with 5 at a three-valued position is rejected as an invalid vector |
| Mbv3Space.Mbv3Translations | test/nas/test_nas.py:270-335 | both error-reporting translations accept the mbv3 test data and give each other's expected result |
| TransformerSpace.AdmissibleWitness | test/nas/test_nas.py:286-288 | some choice of the unpinned transformer values is admissible, so the transformer lemmas are not vacuous |
| TransformerSpace.TransformerWellFormed | test/nas/test_nas.py:286-288 | every admissible completion of the transformer table is well formed |
| TransformerSpace.TransformerShape | test/nas/test_nas.py:247-256 | the transformer table has the expected nine names, 39 positions and a one-hot length of 100 |
| TransformerSpace.TransformerFieldIndices0 | test/nas/test_nas.py:322-323 | the embedding and encoder-ffn lists encode to their runs of the test vector |
| TransformerSpace.TransformerFieldIndices1 | test/nas/test_nas.py:322-323 | the decoder-ffn, depth and encoder-heads lists encode to their runs |
| TransformerSpace.TransformerFieldIndices2 | test/nas/test_nas.py:322-323 | the decoder-heads, ende-heads and arbitrary-attention lists encode to their runs |
| TransformerSpace.TransformerConfigValid | test/nas/test_nas.py:322 | the expected transformer dictionary is valid for the table |
| TransformerSpace.TransformerEncodeGroup0 | test/nas/test_nas.py:322-323 | translate2pymoo of the first three fields is the first 8 entries of the test vector |
| TransformerSpace.TransformerEncodeGroup1 | test/nas/test_nas.py:322-323 | translate2pymoo of the middle three fields is the next 13 entries |
| TransformerSpace.TransformerEncodeGroup2 | test/nas/test_nas.py:322-323 | translate2pymoo of the last three fields is the last 18 entries |
| TransformerSpace.TransformerTranslate2Pymoo | test/nas/test_nas.py:321-335 | translate2pymoo of the expected transformer dictionary is the 39-entry test vector |
| TransformerSpace.TransformerTranslate2Param | test/nas/test_nas.py:285-302 | translate2param of the transformer test vector is the expected dictionary |
| TransformerSpace.TransformerRuns | test/nas/test_nas.py:247-249 | the cardinality runs of the transformer fields (1 or 6 positions of 2, 3 or 6 values) written out |
| TransformerSpace.TransformerRun0 | test/nas/test_nas.py:248-251 | blocks of an embedding-width position holding index 0 of 2 values |
| TransformerSpace.TransformerRun1 | test/nas/test_nas.py:248-252 | blocks of an encoder-ffn run |
| TransformerSpace.TransformerRun2 | test/nas/test_nas.py:248-252 | blocks of a decoder-ffn run |
| TransformerSpace.TransformerRun3 | test/nas/test_nas.py:248-253 | blocks of the decoder depth position |
| TransformerSpace.TransformerRun4 | test/nas/test_nas.py:248-253 | blocks of the encoder-heads run |
| TransformerSpace.TransformerRun5 | test/nas/test_nas.py:249-254 | blocks of the decoder-heads run |
| TransformerSpace.TransformerRun6 | test/nas/test_nas.py:249-254 | blocks of the ende-heads run |
| TransformerSpace.TransformerRun7 | test/nas/test_nas.py:249-255 | blocks of the arbitrary-attention run |
| TransformerSpace.TransformerOneHotGroup0 | test/nas/test_nas.py:250-252 | onehot_generic of the first three fields on their runs |
| TransformerSpace.TransformerOneHotGroup1 | test/nas/test_nas.py:252-254 | onehot_generic of the middle three fields on their runs |
| TransformerSpace.TransformerOneHotGroup2 | test/nas/test_nas.py:253-255 | onehot_generic of the last three fields on their runs |
| TransformerSpace.TransformerOneHotGeneric | test/nas/test_nas.py:225-268 | onehot_generic of the transformer test vector is the expected 100 bits |
| TransformerSpace.TransformerTranslations | test/nas/test_nas.py:270-335 | both error-reporting translations accept the transformer test data and give each other's expected result |

## Left out

- The source of the supernet parameter-manager module is not available. Its behaviour is rebuilt from the test vectors, and value lists no test pins are parameters (`TransformerFree`).
- Depth truncation is not modelled: the tests pin full-length lists (`d = [4, 2, 4, 2, 2]` sums to 14, yet `ks` and `e` keep 20 entries in both directions; `Mbv3NoTruncation`).
- Decode, Encode: these take a valid vector or dictionary as a precondition. The failures are modelled by `Translate2Param` and `Translate2Pymoo`, which return an error instead. The error names (`InvalidVector`, `MissingField`, `UnknownValue`) are the model's own, and so are the rejection rules: a vector or list of the wrong length is rejected, and dictionary keys outside the table are ignored. No test pins the exception types or these rules.
- OneHot: takes a valid vector as a precondition; no behaviour is defined for an out-of-range vector.
- RandomSamples: the random generator is a parameter. The model takes one raw draw per coordinate and reduces it modulo the position's cardinality. Uniformity and independence of the draws are not modelled.
- The NAS search runs (grid, random, Bayesian optimisation, NSGA-II, AGE), the accuracy predictor and its save/load, MAC counting and latency measurement are out of scope: they live in unseen modules and use torch, pickle or wall-clock time. The search-run tests only check a non-empty result; the predictor and latency calls assert nothing; the MAC count 217234208 (test/nas/test_nas.py:218) comes from an unseen torch model graph, and latency is wall-clock time.
- The YAML and CSV fixture writers, the ConvNet model and its train/eval closures are out of scope: file I/O and floating-point framework code.
