/** What the orchestrator does to one chunk on the way out and to one carrier
    artifact on the way in, as functions of its collaborators; the class in
    StegoOrchestration is proved against these. */
module StegoPipeline {
  import opened StegoTypes
  import opened TemplateAlterations

  /** `_dummy_function`: the default codec, which returns its data whatever
      the direction. */
  function DummyCodec(data: Bytes, encode: bool): (r: Bytes)
    ensures r == data
  {
    data
  }

  /** The carrier artifact for one chunk under `template`: encode, inject,
      then run every alteration of the template in registry order. `None`
      when the injector refuses the encoded chunk. */
  function Artifact(carrier: Carrier, runAll: Transformer, codec: Codec, template: string, chunk: Bytes): (r: Option<Bytes>)
    ensures r.Some? <==> carrier.inject(codec(chunk, true), template).Some?
    ensures Alterations(carrier.templates, template) == [] ==> r == carrier.inject(codec(chunk, true), template)
  {
    match carrier.inject(codec(chunk, true), template)
    case None => None
    case Some(injected) => Some(ApplyAlterations(runAll, injected, Alterations(carrier.templates, template)))
  }

  /** The artifacts for a list of chunks: one per chunk, in chunk order, or
      the injection error if any chunk is refused (no partial list). */
  function Outbound(carrier: Carrier, runAll: Transformer, codec: Codec, template: string, chunks: seq<Bytes>): (r: Result<seq<Bytes>>)
    ensures r.Ok? <==> forall k :: 0 <= k < |chunks| ==> Artifact(carrier, runAll, codec, template, chunks[k]).Some?
    ensures r.Ok? ==> |r.value| == |chunks|
    ensures r.Ok? ==> forall k :: 0 <= k < |chunks| ==> Artifact(carrier, runAll, codec, template, chunks[k]) == Some(r.value[k])
    ensures r.Err? ==> r.error == InjectionFailed(template)
    decreases |chunks|
  {
    if chunks == [] then Ok([])
    else
      match Artifact(carrier, runAll, codec, template, chunks[0])
      case None => Err(InjectionFailed(template))
      case Some(first) =>
        match Outbound(carrier, runAll, codec, template, chunks[1..])
        case Err(e) => Err(e)
        case Ok(rest) =>
          assert forall k :: 1 <= k < |chunks| ==> chunks[k] == chunks[1..][k - 1];
          Ok([first] + rest)
  }

  /** One received artifact: the first guessed template, and the decoded
      payload extracted with it. */
  function Inbound(carrier: Carrier, codec: Codec, artifact: Bytes): (r: Result<(string, Bytes)>)
    ensures r == Err(NoTemplateGuessed) <==> carrier.guess(artifact) == []
    ensures r.Ok? <==> carrier.guess(artifact) != [] && carrier.extract(artifact, carrier.guess(artifact)[0]).Some?
    ensures r.Ok? ==> r.value.0 == carrier.guess(artifact)[0]
  {
    var guessed := carrier.guess(artifact);
    if guessed == [] then Err(NoTemplateGuessed)
    else
      match carrier.extract(artifact, guessed[0])
      case None => Err(ExtractionFailed(guessed[0]))
      case Some(payload) => Ok((guessed[0], codec(payload, false)))
  }

  /** Assumption, not promised by the orchestrator: decoding undoes encoding. */
  ghost predicate CodecInverse(codec: Codec)
  {
    forall data :: codec(codec(data, true), false) == data
  }

  /** Assumption, not promised by the orchestrator: an injected carrier is
      guessed back to its template and yields its payload on extraction. */
  ghost predicate InjectorInverse(carrier: Carrier, template: string)
  {
    forall payload :: carrier.inject(payload, template).Some? ==>
      var injected := carrier.inject(payload, template).value;
      carrier.guess(injected) != [] && carrier.guess(injected)[0] == template
      && carrier.extract(injected, template) == Some(payload)
  }

  /** Assumption, not promised by the orchestrator: no alteration of the
      template changes what the injector guesses or extracts. The inbound
      pipeline never undoes alterations, so the round trip needs this. */
  ghost predicate AlterationsTransparent(carrier: Carrier, runAll: Transformer, template: string)
  {
    forall data, alteration :: alteration in Alterations(carrier.templates, template) ==>
      carrier.guess(runAll(data, alteration)) == carrier.guess(data)
      && carrier.extract(runAll(data, alteration), template) == carrier.extract(data, template)
  }

  /** The injector recovers the artifacts sent under `template`: after its
      alterations, an injected carrier is still guessed back to the template
      and still yields its payload. */
  ghost predicate Recovers(carrier: Carrier, runAll: Transformer, template: string)
  {
    forall payload :: carrier.inject(payload, template).Some? ==>
      var altered := ApplyAlterations(runAll, carrier.inject(payload, template).value, Alterations(carrier.templates, template));
      carrier.guess(altered) != [] && carrier.guess(altered)[0] == template
      && carrier.extract(altered, template) == Some(payload)
  }

  /** The identity codec is its own inverse. */
  lemma DummyCodecInverse()
    ensures CodecInverse(DummyCodec)
  {
  }

  /** A chain of transparent alterations leaves guessing and extraction as
      they were on the injected carrier. */
  lemma {:induction false} AlterationChainTransparent(carrier: Carrier, runAll: Transformer, template: string, data: Bytes, alterations: seq<string>)
    requires AlterationsTransparent(carrier, runAll, template)
    requires forall a :: a in alterations ==> a in Alterations(carrier.templates, template)
    ensures carrier.guess(ApplyAlterations(runAll, data, alterations)) == carrier.guess(data)
    ensures carrier.extract(ApplyAlterations(runAll, data, alterations), template) == carrier.extract(data, template)
    decreases |alterations|
  {
    if alterations != [] {
      var n := |alterations|;
      var init := alterations[..n - 1];
      assert forall a :: a in init ==> a in alterations;
      AlterationChainTransparent(carrier, runAll, template, data, init);
      assert alterations[n - 1] in alterations;
    }
  }

  /** An invertible injector whose alterations are transparent recovers the
      artifacts sent; with no alterations, transparency holds vacuously. */
  lemma RecoversFromParts(carrier: Carrier, runAll: Transformer, template: string)
    requires InjectorInverse(carrier, template)
    requires AlterationsTransparent(carrier, runAll, template)
    ensures Recovers(carrier, runAll, template)
  {
    forall payload | carrier.inject(payload, template).Some?
      ensures var altered := ApplyAlterations(runAll, carrier.inject(payload, template).value, Alterations(carrier.templates, template));
              carrier.guess(altered) != [] && carrier.guess(altered)[0] == template
              && carrier.extract(altered, template) == Some(payload)
    {
      AlterationChainTransparent(carrier, runAll, template, carrier.inject(payload, template).value,
                                 Alterations(carrier.templates, template));
    }
  }

  /** Under the three assumptions, receiving the artifact of a chunk
      identifies the sending template and yields the chunk itself. */
  lemma ChunkRoundTrip(carrier: Carrier, runAll: Transformer, codec: Codec, template: string, chunk: Bytes)
    requires CodecInverse(codec) && InjectorInverse(carrier, template)
    requires AlterationsTransparent(carrier, runAll, template)
    requires Artifact(carrier, runAll, codec, template, chunk).Some?
    ensures Inbound(carrier, codec, Artifact(carrier, runAll, codec, template, chunk).value) == Ok((template, chunk))
  {
    RecoversFromParts(carrier, runAll, template);
  }

  /** Under the same assumptions, receiving the artifacts of a message one by
      one yields its chunks in order, each under the sending template. */
  lemma MessageRoundTrip(carrier: Carrier, runAll: Transformer, codec: Codec, template: string, chunks: seq<Bytes>, artifacts: seq<Bytes>)
    requires CodecInverse(codec) && InjectorInverse(carrier, template)
    requires AlterationsTransparent(carrier, runAll, template)
    requires Outbound(carrier, runAll, codec, template, chunks) == Ok(artifacts)
    ensures |artifacts| == |chunks|
    ensures forall k :: 0 <= k < |artifacts| ==> Inbound(carrier, codec, artifacts[k]) == Ok((template, chunks[k]))
  {
    forall k | 0 <= k < |artifacts|
      ensures Inbound(carrier, codec, artifacts[k]) == Ok((template, chunks[k]))
    {
      ChunkRoundTrip(carrier, runAll, codec, template, chunks[k]);
    }
  }

  /** The filler `"0" * n` the constructor hands to the codec. */
  function ZeroFiller(n: nat): (r: Bytes)
    ensures |r| == n && forall i :: 0 <= i < n ==> r[i] == 48
  {
    seq(n, _ => 48 as byte)
  }

  /** The codec's decode direction keeps the length of its input. */
  ghost predicate DecodeKeepsLength(codec: Codec)
  {
    forall data :: |codec(data, false)| == |data|
  }

  /** `len(codec("0" * capacity, False)) - tag_length`, the value the
      constructor computes for each template and then discards; `None` for an
      unknown template. It is never below minus the tag length, and with a
      length-keeping decoder it is the capacity minus the tag length. */
  function ProbedCapacity(carrier: Carrier, codec: Codec, tagLength: nat, template: string): (r: Option<int>)
    ensures r.Some? <==> carrier.capacity(template).Some?
    ensures r.Some? ==> r.value >= -(tagLength as int)
    ensures r.Some? && DecodeKeepsLength(codec) ==> r.value == carrier.capacity(template).value - tagLength
  {
    match carrier.capacity(template)
    case None => None
    case Some(capacity) => Some(|codec(ZeroFiller(capacity), false)| - tagLength)
  }

  /** The stricter check that every registered template leaves room for a
      payload after the tag. The orchestrator computes the probe but never
      enforces this: its constructor succeeds whether or not it holds. */
  ghost predicate CapacityViable(carrier: Carrier, codec: Codec, tagLength: nat)
  {
    forall template :: template in carrier.templates ==>
      ProbedCapacity(carrier, codec, tagLength, template).Some?
      && ProbedCapacity(carrier, codec, tagLength, template).value > 0
  }

  /** With the identity codec the probe is capacity minus tag length; a
      one-byte template with a two-byte tag probes to -1 and fails the
      stricter check. */
  lemma DummyCodecProbe(carrier: Carrier, tagLength: nat, template: string)
    requires carrier.capacity(template).Some?
    ensures DecodeKeepsLength(DummyCodec)
    ensures ProbedCapacity(carrier, DummyCodec, tagLength, template)
      == Some(carrier.capacity(template).value - tagLength)
    ensures template in carrier.templates && carrier.capacity(template) == Some(1) && tagLength == 2
      ==> ProbedCapacity(carrier, DummyCodec, tagLength, template) == Some(-1)
          && !CapacityViable(carrier, DummyCodec, tagLength)
  {
  }
}
