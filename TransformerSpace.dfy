/**
 * The transformer_lt_wmt_en_de search space and its test vectors as
 * lemmas.
 */
module TransformerSpace {
  import opened SearchSpace
  import opened ParameterCodec
  import opened OneHotEncoding

  /** The values of the transformer space that the test vectors leave
      open: the second embedding width of encoder and decoder, the whole
      list of decoder depths (only the fourth is pinned, to 3) and the
      third arbitrary encoder-decoder attention choice. */
  datatype TransformerFree = TransformerFree(
    encoderEmbedDim: int, decoderEmbedDim: int, decoderLayerNums: seq<int>, arbitraryEndeAttn: int)

  /** Choices that keep every value list free of repetitions and agree
      with the pinned entries. */
  predicate Admissible(p: TransformerFree) {
    && p.encoderEmbedDim != 640 && p.decoderEmbedDim != 640
    && |p.decoderLayerNums| == 6 && p.decoderLayerNums[3] == 3 && Distinct(p.decoderLayerNums)
    && p.arbitraryEndeAttn != -1 && p.arbitraryEndeAttn != 1
  }

  /** transformer_lt_wmt_en_de: nine fields, 39 positions. */
  function Transformer(p: TransformerFree): Table {
    [
    Field("encoder_embed_dim", 1, [640, p.encoderEmbedDim]),
    Field("decoder_embed_dim", 1, [640, p.decoderEmbedDim]),
    Field("encoder_ffn_embed_dim", 6, [3072, 2048, 1024]),
    Field("decoder_ffn_embed_dim", 6, [3072, 2048, 1024]),
    Field("decoder_layer_num", 1, p.decoderLayerNums),
    Field("encoder_self_attention_heads", 6, [8, 4]),
    Field("decoder_self_attention_heads", 6, [8, 4]),
    Field("decoder_ende_attention_heads", 6, [8, 4]),
    Field("decoder_arbitrary_ende_attn", 6, [-1, 1, p.arbitraryEndeAttn])
    ]
  }

  /** The test vector, one run per field, three fields per line. */
  const TransformerVector: Vector :=
    ([0] + [0] + [2, 1, 0, 0, 0, 2])
    + ([0, 2, 2, 2, 0, 2] + [3] + [0, 0, 0, 0, 0, 0])
    + ([0, 1, 0, 1, 1, 0] + [0, 1, 1, 1, 0, 0] + [1, 0, 0, 1, 0, 1])

  const TransformerConfig: ArchConfig := map[
    "encoder_embed_dim" := [640],
    "decoder_embed_dim" := [640],
    "encoder_ffn_embed_dim" := [1024, 2048, 3072, 3072, 3072, 1024],
    "decoder_ffn_embed_dim" := [3072, 1024, 1024, 1024, 3072, 1024],
    "decoder_layer_num" := [3],
    "encoder_self_attention_heads" := [8, 8, 8, 8, 8, 8],
    "decoder_self_attention_heads" := [8, 4, 8, 4, 4, 8],
    "decoder_ende_attention_heads" := [8, 4, 4, 4, 8, 8],
    "decoder_arbitrary_ende_attn" := [1, -1, -1, 1, -1, 1]
  ]

  /** The expected encoding of the test vector, one field per line,
      grouped as the vector is. */
  const TransformerOneHot: seq<int> :=
    ([1, 0]
      + [1, 0]
      + [0, 0, 1, 0, 1, 0, 1, 0, 0, 1, 0, 0, 1, 0, 0, 0, 0, 1])
    + ([1, 0, 0, 0, 0, 1, 0, 0, 1, 0, 0, 1, 1, 0, 0, 0, 0, 1]
      + [0, 0, 0, 1, 0, 0]
      + [1, 0, 1, 0, 1, 0, 1, 0, 1, 0, 1, 0])
    + ([1, 0, 0, 1, 1, 0, 0, 1, 0, 1, 1, 0]
      + [1, 0, 0, 1, 0, 1, 0, 1, 1, 0, 1, 0]
      + [0, 1, 0, 1, 0, 0, 1, 0, 0, 0, 1, 0, 1, 0, 0, 0, 1, 0])

  lemma TransformerWellFormed(p: TransformerFree)
    requires Admissible(p)
    ensures WellFormed(Transformer(p))
  {
  }

  lemma TransformerShape(p: TransformerFree)
    requires Admissible(p)
    ensures WellFormed(Transformer(p)) && Names(Transformer(p)) == TransformerConfig.Keys
    ensures VectorLength(Transformer(p)) == 39 && OneHotLength(Transformer(p)) == 100
  {
    TransformerWellFormed(p);
    var t := Transformer(p);
    var g0, g1, g2 := [t[0], t[1], t[2]], [t[3], t[4], t[5]], [t[6], t[7], t[8]];
    assert t == g0 + g1 + g2;
    TableAppend(g0 + g1, g2);
    TableAppend(g0, g1);
    TableOfThree(t[0], t[1], t[2]);
    TableOfThree(t[3], t[4], t[5]);
    TableOfThree(t[6], t[7], t[8]);
  }

  lemma TransformerFieldIndices0(p: TransformerFree)
    requires Admissible(p)
    ensures EncodeField([640, p.encoderEmbedDim], TransformerConfig["encoder_embed_dim"]) == [0]
    ensures EncodeField([640, p.decoderEmbedDim], TransformerConfig["decoder_embed_dim"]) == [0]
    ensures EncodeField([3072, 2048, 1024], TransformerConfig["encoder_ffn_embed_dim"]) == [2, 1, 0, 0, 0, 2]
  {
  }

  lemma TransformerFieldIndices1(p: TransformerFree)
    requires Admissible(p)
    ensures EncodeField([3072, 2048, 1024], TransformerConfig["decoder_ffn_embed_dim"]) == [0, 2, 2, 2, 0, 2]
    ensures EncodeField(p.decoderLayerNums, TransformerConfig["decoder_layer_num"]) == [3]
    ensures EncodeField([8, 4], TransformerConfig["encoder_self_attention_heads"]) == [0, 0, 0, 0, 0, 0]
  {
    IndexOfDistinct(p.decoderLayerNums, 3);
  }

  lemma TransformerFieldIndices2(p: TransformerFree)
    requires Admissible(p)
    ensures EncodeField([8, 4], TransformerConfig["decoder_self_attention_heads"]) == [0, 1, 0, 1, 1, 0]
    ensures EncodeField([8, 4], TransformerConfig["decoder_ende_attention_heads"]) == [0, 1, 1, 1, 0, 0]
    ensures EncodeField([-1, 1, p.arbitraryEndeAttn], TransformerConfig["decoder_arbitrary_ende_attn"]) == [1, 0, 0, 1, 0, 1]
  {
  }

  lemma TransformerConfigValid(p: TransformerFree)
    requires Admissible(p)
    ensures ValidConfig(Transformer(p), TransformerConfig)
  {
    var t := Transformer(p);
    assert ValidField(t[0], TransformerConfig["encoder_embed_dim"]);
    assert ValidField(t[1], TransformerConfig["decoder_embed_dim"]);
    assert ValidField(t[2], TransformerConfig["encoder_ffn_embed_dim"]);
    assert ValidField(t[3], TransformerConfig["decoder_ffn_embed_dim"]);
    assert ValidField(t[4], TransformerConfig["decoder_layer_num"]);
    assert ValidField(t[5], TransformerConfig["encoder_self_attention_heads"]);
    assert ValidField(t[6], TransformerConfig["decoder_self_attention_heads"]);
    assert ValidField(t[7], TransformerConfig["decoder_ende_attention_heads"]);
    assert ValidField(t[8], TransformerConfig["decoder_arbitrary_ende_attn"]);
  }

  lemma TransformerEncodeGroup0(p: TransformerFree)
    requires Admissible(p)
    ensures var t := Transformer(p); Encode([t[0], t[1], t[2]], TransformerConfig) == ([0] + [0] + [2, 1, 0, 0, 0, 2])
  {
    var t := Transformer(p);
    TransformerFieldIndices0(p);
    assert ValidField(t[0], TransformerConfig["encoder_embed_dim"]);
    assert ValidField(t[1], TransformerConfig["decoder_embed_dim"]);
    assert ValidField(t[2], TransformerConfig["encoder_ffn_embed_dim"]);
    EncodeThreeFields(t[0], t[1], t[2], TransformerConfig);
  }

  lemma TransformerEncodeGroup1(p: TransformerFree)
    requires Admissible(p)
    ensures var t := Transformer(p); Encode([t[3], t[4], t[5]], TransformerConfig) == ([0, 2, 2, 2, 0, 2] + [3] + [0, 0, 0, 0, 0, 0])
  {
    var t := Transformer(p);
    TransformerFieldIndices1(p);
    assert ValidField(t[3], TransformerConfig["decoder_ffn_embed_dim"]);
    assert ValidField(t[4], TransformerConfig["decoder_layer_num"]);
    assert ValidField(t[5], TransformerConfig["encoder_self_attention_heads"]);
    EncodeThreeFields(t[3], t[4], t[5], TransformerConfig);
  }

  lemma TransformerEncodeGroup2(p: TransformerFree)
    requires Admissible(p)
    ensures var t := Transformer(p); Encode([t[6], t[7], t[8]], TransformerConfig) == ([0, 1, 0, 1, 1, 0] + [0, 1, 1, 1, 0, 0] + [1, 0, 0, 1, 0, 1])
  {
    var t := Transformer(p);
    TransformerFieldIndices2(p);
    assert ValidField(t[6], TransformerConfig["decoder_self_attention_heads"]);
    assert ValidField(t[7], TransformerConfig["decoder_ende_attention_heads"]);
    assert ValidField(t[8], TransformerConfig["decoder_arbitrary_ende_attn"]);
    EncodeThreeFields(t[6], t[7], t[8], TransformerConfig);
  }

  /** translate2pymoo on the expected dictionary gives the test vector. */
  lemma TransformerTranslate2Pymoo(p: TransformerFree)
    requires Admissible(p)
    ensures ValidConfig(Transformer(p), TransformerConfig)
    ensures Encode(Transformer(p), TransformerConfig) == TransformerVector
  {
    var t, c := Transformer(p), TransformerConfig;
    var g0, g1, g2 := [t[0], t[1], t[2]], [t[3], t[4], t[5]], [t[6], t[7], t[8]];
    assert t == g0 + g1 + g2;
    TransformerConfigValid(p);
    EncodeThreeTables(g0, g1, g2, c);
    TransformerEncodeGroup0(p);
    TransformerEncodeGroup1(p);
    TransformerEncodeGroup2(p);
  }

  /** translate2param on the test vector gives the expected dictionary. */
  lemma TransformerTranslate2Param(p: TransformerFree)
    requires Admissible(p)
    ensures ValidVector(Transformer(p), TransformerVector)
    ensures Decode(Transformer(p), TransformerVector) == TransformerConfig
  {
    TransformerShape(p);
    TransformerTranslate2Pymoo(p);
    DecodeEncode(Transformer(p), TransformerConfig);
  }

  /** The cardinality runs of the transformer fields, written out. */
  const TwoBy1: seq<nat> := [2]
  const SixBy1: seq<nat> := [6]
  const TwoBy6: seq<nat> := [2, 2, 2, 2, 2, 2]
  const ThreeBy6: seq<nat> := [3, 3, 3, 3, 3, 3]

  lemma TransformerRuns()
    ensures Repeat(2, 1) == TwoBy1 && Repeat(6, 1) == SixBy1
    ensures Repeat(2, 6) == TwoBy6 && Repeat(3, 6) == ThreeBy6
  {
  }

  lemma TransformerRun0()
    ensures InRange(TwoBy1, [0])
    ensures OneHotBlocks(TwoBy1, [0]) == [1, 0]
  {
  }

  lemma TransformerRun1()
    ensures InRange(ThreeBy6, [2, 1, 0, 0, 0, 2])
    ensures OneHotBlocks(ThreeBy6, [2, 1, 0, 0, 0, 2]) == [0, 0, 1, 0, 1, 0, 1, 0, 0, 1, 0, 0, 1, 0, 0, 0, 0, 1]
  {
  }

  lemma TransformerRun2()
    ensures InRange(ThreeBy6, [0, 2, 2, 2, 0, 2])
    ensures OneHotBlocks(ThreeBy6, [0, 2, 2, 2, 0, 2]) == [1, 0, 0, 0, 0, 1, 0, 0, 1, 0, 0, 1, 1, 0, 0, 0, 0, 1]
  {
  }

  lemma TransformerRun3()
    ensures InRange(SixBy1, [3])
    ensures OneHotBlocks(SixBy1, [3]) == [0, 0, 0, 1, 0, 0]
  {
  }

  lemma TransformerRun4()
    ensures InRange(TwoBy6, [0, 0, 0, 0, 0, 0])
    ensures OneHotBlocks(TwoBy6, [0, 0, 0, 0, 0, 0]) == [1, 0, 1, 0, 1, 0, 1, 0, 1, 0, 1, 0]
  {
  }

  lemma TransformerRun5()
    ensures InRange(TwoBy6, [0, 1, 0, 1, 1, 0])
    ensures OneHotBlocks(TwoBy6, [0, 1, 0, 1, 1, 0]) == [1, 0, 0, 1, 1, 0, 0, 1, 0, 1, 1, 0]
  {
  }

  lemma TransformerRun6()
    ensures InRange(TwoBy6, [0, 1, 1, 1, 0, 0])
    ensures OneHotBlocks(TwoBy6, [0, 1, 1, 1, 0, 0]) == [1, 0, 0, 1, 0, 1, 0, 1, 1, 0, 1, 0]
  {
  }

  lemma TransformerRun7()
    ensures InRange(ThreeBy6, [1, 0, 0, 1, 0, 1])
    ensures OneHotBlocks(ThreeBy6, [1, 0, 0, 1, 0, 1]) == [0, 1, 0, 1, 0, 0, 1, 0, 0, 0, 1, 0, 1, 0, 0, 0, 1, 0]
  {
  }

  lemma TransformerOneHotGroup0(p: TransformerFree)
    requires Admissible(p)
    ensures var t := Transformer(p); ValidVector([t[0], t[1], t[2]], ([0] + [0] + [2, 1, 0, 0, 0, 2]))
    ensures var t := Transformer(p); OneHot([t[0], t[1], t[2]], ([0] + [0] + [2, 1, 0, 0, 0, 2])) == ([1, 0] + [1, 0] + [0, 0, 1, 0, 1, 0, 1, 0, 0, 1, 0, 0, 1, 0, 0, 0, 0, 1])
  {
    var t := Transformer(p);
    TransformerRuns();
    TransformerRun0();
    TransformerRun1();
    OneHotThreeFields(t[0], t[1], t[2], [0], [0], [2, 1, 0, 0, 0, 2]);
  }

  lemma TransformerOneHotGroup1(p: TransformerFree)
    requires Admissible(p)
    ensures var t := Transformer(p); ValidVector([t[3], t[4], t[5]], ([0, 2, 2, 2, 0, 2] + [3] + [0, 0, 0, 0, 0, 0]))
    ensures var t := Transformer(p); OneHot([t[3], t[4], t[5]], ([0, 2, 2, 2, 0, 2] + [3] + [0, 0, 0, 0, 0, 0])) == ([1, 0, 0, 0, 0, 1, 0, 0, 1, 0, 0, 1, 1, 0, 0, 0, 0, 1] + [0, 0, 0, 1, 0, 0] + [1, 0, 1, 0, 1, 0, 1, 0, 1, 0, 1, 0])
  {
    var t := Transformer(p);
    TransformerRuns();
    TransformerRun2();
    TransformerRun3();
    TransformerRun4();
    OneHotThreeFields(t[3], t[4], t[5], [0, 2, 2, 2, 0, 2], [3], [0, 0, 0, 0, 0, 0]);
  }

  lemma TransformerOneHotGroup2(p: TransformerFree)
    requires Admissible(p)
    ensures var t := Transformer(p); ValidVector([t[6], t[7], t[8]], ([0, 1, 0, 1, 1, 0] + [0, 1, 1, 1, 0, 0] + [1, 0, 0, 1, 0, 1]))
    ensures var t := Transformer(p); OneHot([t[6], t[7], t[8]], ([0, 1, 0, 1, 1, 0] + [0, 1, 1, 1, 0, 0] + [1, 0, 0, 1, 0, 1])) == ([1, 0, 0, 1, 1, 0, 0, 1, 0, 1, 1, 0] + [1, 0, 0, 1, 0, 1, 0, 1, 1, 0, 1, 0] + [0, 1, 0, 1, 0, 0, 1, 0, 0, 0, 1, 0, 1, 0, 0, 0, 1, 0])
  {
    var t := Transformer(p);
    TransformerRuns();
    TransformerRun5();
    TransformerRun6();
    TransformerRun7();
    OneHotThreeFields(t[6], t[7], t[8], [0, 1, 0, 1, 1, 0], [0, 1, 1, 1, 0, 0], [1, 0, 0, 1, 0, 1]);
  }

  /** onehot_generic on the test vector gives the expected 100 bits. */
  lemma TransformerOneHotGeneric(p: TransformerFree)
    requires Admissible(p)
    ensures ValidVector(Transformer(p), TransformerVector)
    ensures OneHot(Transformer(p), TransformerVector) == TransformerOneHot
  {
    var t := Transformer(p);
    var g0, g1, g2 := [t[0], t[1], t[2]], [t[3], t[4], t[5]], [t[6], t[7], t[8]];
    var a0, a1, a2 := ([0] + [0] + [2, 1, 0, 0, 0, 2]), ([0, 2, 2, 2, 0, 2] + [3] + [0, 0, 0, 0, 0, 0]), ([0, 1, 0, 1, 1, 0] + [0, 1, 1, 1, 0, 0] + [1, 0, 0, 1, 0, 1]);
    assert t == g0 + g1 + g2;
    TransformerOneHotGroup0(p);
    TransformerOneHotGroup1(p);
    TransformerOneHotGroup2(p);
    OneHotAppend(g0, a0, g1, a1);
    OneHotAppend(g0 + g1, a0 + a1, g2, a2);
  }

  /** translate2param accepts the test vector and gives the expected
      dictionary; translate2pymoo accepts that dictionary and gives the
      test vector back. */
  lemma TransformerTranslations(p: TransformerFree)
    requires Admissible(p)
    ensures Translate2Param(Transformer(p), TransformerVector) == Ok(TransformerConfig)
    ensures Translate2Pymoo(Transformer(p), TransformerConfig) == Ok(TransformerVector)
  {
    TransformerTranslate2Param(p);
    TransformerTranslate2Pymoo(p);
    TransformerShape(p);
    TranslateRoundTrips(Transformer(p), TransformerVector, TransformerConfig);
  }

  /** The admissibility conditions can be met: the transformer lemmas are
      not vacuous. */
  lemma AdmissibleWitness()
    ensures Admissible(TransformerFree(512, 512, [6, 5, 4, 3, 2, 1], 2))
  {
  }
}
