/** The steganographic orchestrator: session state (send template, last
    received template, per-stream chunk sizes) and the two pipelines that
    read and write it. The base orchestrator it extends (chunking, tagging,
    key cycling, reassembly) is an opaque state `S` with three functions. */
module StegoOrchestration {
  import opened StegoTypes
  import opened TemplateAlterations
  import opened StegoPipeline

  class StegoOrchestrator<S, R> {
    const carrier: Carrier
    const runAll: Transformer
    const codec: Codec
    const mainTemplate: string
    const tagLength: nat
    /** The stored cycling algorithm: the given one, or the standard one
        when none was given. */
    const cyclingAlgorithm: CyclingAlgorithm
    /** The stream used when `ReadyMessage` is given none; chosen by the base. */
    const defaultStream: string
    /** `super().readyMessage` for a stream whose chunker was set to a size. */
    const baseReady: (S, Bytes, string, nat) -> (S, seq<Bytes>)
    /** `super().depositChunk`, its result passed through untouched. */
    const baseDeposit: (S, Bytes) -> (S, R)
    /** `super().addStream`. */
    const baseAddStream: (S, string) -> S

    var currentTemplate: string
    var receivedTemplate: Option<string>
    /** The registered streams; `Some(n)` once this layer has set the
        stream's chunker to `n` bytes, `None` before. */
    var chunkSizes: map<string, Option<nat>>
    var base: S

    /** Every chunk size this layer has set is the capacity of a template. */
    ghost predicate SizesAreCapacities()
      reads this
    {
      forall s :: s in chunkSizes && chunkSizes[s].Some? ==>
        exists template :: carrier.capacity(template) == chunkSizes[s]
    }

    constructor (carrier: Carrier, runAll: Transformer, codec: Codec, mainTemplate: string,
                 tagLength: nat, cyclingAlgorithm: Option<CyclingAlgorithm>,
                 streams: seq<string>, defaultStream: string,
                 baseInit: Option<CyclingAlgorithm> -> S,
                 baseReady: (S, Bytes, string, nat) -> (S, seq<Bytes>),
                 baseDeposit: (S, Bytes) -> (S, R),
                 baseAddStream: (S, string) -> S)
      ensures this.carrier == carrier && this.runAll == runAll && this.codec == codec
      ensures this.mainTemplate == mainTemplate && this.tagLength == tagLength
      ensures this.defaultStream == defaultStream
      ensures this.cyclingAlgorithm
        == if cyclingAlgorithm.None? then StandardCyclingAlgorithm else cyclingAlgorithm.value
      ensures this.baseReady == baseReady && this.baseDeposit == baseDeposit
      ensures this.baseAddStream == baseAddStream
      ensures currentTemplate == mainTemplate && receivedTemplate == None
      ensures chunkSizes == map s | s in streams :: None
      ensures base == baseInit(cyclingAlgorithm)
      ensures SizesAreCapacities()
    {
      this.carrier := carrier;
      this.runAll := runAll;
      this.codec := codec;
      this.mainTemplate := mainTemplate;
      this.tagLength := tagLength;
      this.defaultStream := defaultStream;
      this.cyclingAlgorithm :=
        if cyclingAlgorithm.None? then StandardCyclingAlgorithm else cyclingAlgorithm.value;
      this.baseReady := baseReady;
      this.baseDeposit := baseDeposit;
      this.baseAddStream := baseAddStream;
      currentTemplate := mainTemplate;
      receivedTemplate := None;
      chunkSizes := map s | s in streams :: None;
      base := baseInit(cyclingAlgorithm);
    }

    /** Selects the template for later outbound calls; the name is not checked. */
    method UseTemplate(template: string)
      modifies this
      ensures currentTemplate == template
      ensures receivedTemplate == old(receivedTemplate) && chunkSizes == old(chunkSizes)
      ensures base == old(base)
    {
      currentTemplate := template;
    }

    /** The template identified by the latest `DepositChunk`; an error before any. */
    method LastReceivedTemplate() returns (r: Result<string>)
      ensures receivedTemplate.Some? ==> r == Ok(receivedTemplate.value)
      ensures receivedTemplate.None? ==> r == Err(NothingReceived)
    {
      if receivedTemplate.None? {
        return Err(NothingReceived);
      }
      return Ok(receivedTemplate.value);
    }

    /** The registered templates whose name starts with `template + "_alt"`,
        in registry order. */
    method GetAlterations(template: string) returns (ret: seq<string>)
      ensures ret == Alterations(carrier.templates, template)
    {
      var templates := carrier.templates;
      ret := [];
      var i := 0;
      while i < |templates|
        invariant 0 <= i <= |templates|
        invariant ret == Alterations(templates[..i], template)
      {
        assert templates[..i + 1][..i] == templates[..i];
        if StartsWith(templates[i], AltPrefix(template)) {
          ret := ret + [templates[i]];
        }
        i := i + 1;
      }
      assert templates[..i] == templates;
    }

    /** Turns a message into carrier artifacts with the current template:
        sets the stream's chunk size to the template's capacity, lets the base
        chunk the message, and maps each chunk to its artifact. */
    method ReadyMessage(message: Bytes, stream: Option<string>) returns (r: Result<seq<Bytes>>)
      requires SizesAreCapacities()
      modifies this
      ensures SizesAreCapacities()
      ensures currentTemplate == old(currentTemplate) && receivedTemplate == old(receivedTemplate)
      ensures var target := if stream.Some? then stream.value else defaultStream;
              var capacity := carrier.capacity(old(currentTemplate));
              if capacity.None? then
                r == Err(UnknownTemplate(old(currentTemplate)))
                && chunkSizes == old(chunkSizes) && base == old(base)
              else if target !in old(chunkSizes) then
                r == Err(UnknownStream(target))
                && chunkSizes == old(chunkSizes) && base == old(base)
              else
                var step := baseReady(old(base), message, target, capacity.value);
                chunkSizes == old(chunkSizes)[target := Some(capacity.value)]
                && base == step.0
                && r == Outbound(carrier, runAll, codec, old(currentTemplate), step.1)
    {
      var template := currentTemplate;
      var target := if stream.Some? then stream.value else defaultStream;
      var capacity := carrier.capacity(template);
      if capacity.None? {
        return Err(UnknownTemplate(template));
      }
      if target !in chunkSizes {
        return Err(UnknownStream(target));
      }
      chunkSizes := chunkSizes[target := Some(capacity.value)];
      assert carrier.capacity(template) == chunkSizes[target];
      var step := baseReady(base, message, target, capacity.value);
      base := step.0;
      var chunks := step.1;

      r := ReadyChunks(template, chunks);
    }

    /** The loop of `readyMessage` over the base's chunks: encode, inject and
        alter each one, collecting the artifacts in chunk order; the first
        refused injection aborts the whole call. */
    method ReadyChunks(template: string, chunks: seq<Bytes>) returns (r: Result<seq<Bytes>>)
      ensures r == Outbound(carrier, runAll, codec, template, chunks)
    {
      var readyChunks: seq<Bytes> := [];
      var i := 0;
      while i < |chunks|
        invariant 0 <= i <= |chunks|
        invariant |readyChunks| == i
        invariant forall k :: 0 <= k < i ==> Artifact(carrier, runAll, codec, template, chunks[k]) == Some(readyChunks[k])
      {
        var modified := codec(chunks[i], true);
        var injected := carrier.inject(modified, template);
        if injected.None? {
          return Err(InjectionFailed(template));
        }
        var alterations := GetAlterations(template);
        var transformed := injected.value;
        var j := 0;
        while j < |alterations|
          invariant 0 <= j <= |alterations|
          invariant transformed == ApplyAlterations(runAll, injected.value, alterations[..j])
        {
          assert alterations[..j + 1][..j] == alterations[..j];
          transformed := runAll(transformed, alterations[j]);
          j := j + 1;
        }
        assert alterations[..j] == alterations;
        readyChunks := readyChunks + [transformed];
        i := i + 1;
      }
      var expected := Outbound(carrier, runAll, codec, template, chunks);
      assert expected.Ok? && |expected.value| == |readyChunks|;
      assert forall k :: 0 <= k < |chunks| ==> expected.value[k] == readyChunks[k];
      assert expected.value == readyChunks;
      r := Ok(readyChunks);
      assert r == expected;
    }

    /** Receives one artifact: records the first guessed template, extracts
        with it, decodes, and hands the chunk to the base. */
    method DepositChunk(chunk: Bytes) returns (r: Result<R>)
      requires SizesAreCapacities()
      modifies this
      ensures SizesAreCapacities()
      ensures currentTemplate == old(currentTemplate) && chunkSizes == old(chunkSizes)
      ensures var guessed := carrier.guess(chunk);
              var inbound := Inbound(carrier, codec, chunk);
              if guessed == [] then
                r == Err(NoTemplateGuessed)
                && receivedTemplate == old(receivedTemplate) && base == old(base)
              else if inbound.Err? then
                r == Err(inbound.error)
                && receivedTemplate == Some(guessed[0]) && base == old(base)
              else
                var step := baseDeposit(old(base), inbound.value.1);
                receivedTemplate == Some(guessed[0]) && base == step.0 && r == Ok(step.1)
    {
      var guessed := carrier.guess(chunk);
      if guessed == [] {
        return Err(NoTemplateGuessed);
      }
      var template := guessed[0];
      receivedTemplate := Some(template);
      var extracted := carrier.extract(chunk, template);
      if extracted.None? {
        return Err(ExtractionFailed(template));
      }
      var decoded := codec(extracted.value, false);
      var step := baseDeposit(base, decoded);
      base := step.0;
      return Ok(step.1);
    }

    /** Registers a stream with the base and gives it a fresh chunker with no
        size set; every other stream keeps its size. */
    method AddStream(stream: string)
      requires SizesAreCapacities()
      modifies this
      ensures SizesAreCapacities()
      ensures chunkSizes == old(chunkSizes)[stream := None]
      ensures base == baseAddStream(old(base), stream)
      ensures currentTemplate == old(currentTemplate) && receivedTemplate == old(receivedTemplate)
    {
      base := baseAddStream(base, stream);
      chunkSizes := chunkSizes[stream := None];
    }
  }

  /** Sending on a newly added stream leaves the default stream's chunk size
      as it was. */
  method SeparateStreams<S, R>(orchestrator: StegoOrchestrator<S, R>, message: Bytes, stream: string)
      returns (r: Result<seq<Bytes>>)
    requires orchestrator.SizesAreCapacities()
    requires stream != orchestrator.defaultStream
    modifies orchestrator
    ensures orchestrator.defaultStream in old(orchestrator.chunkSizes) ==>
      orchestrator.defaultStream in orchestrator.chunkSizes &&
      orchestrator.chunkSizes[orchestrator.defaultStream] == old(orchestrator.chunkSizes)[orchestrator.defaultStream]
    ensures stream in orchestrator.chunkSizes
  {
    orchestrator.AddStream(stream);
    r := orchestrator.ReadyMessage(message, Some(stream));
  }

  /** After a deposit whose guess list is not empty, the accessor returns
      the first guessed template. */
  method ReceiveThenQuery<S, R>(orchestrator: StegoOrchestrator<S, R>, artifact: Bytes)
      returns (r: Result<string>)
    requires orchestrator.SizesAreCapacities()
    modifies orchestrator
    ensures orchestrator.carrier.guess(artifact) != [] ==> r == Ok(orchestrator.carrier.guess(artifact)[0])
    ensures orchestrator.carrier.guess(artifact) == [] ==>
      r == if old(orchestrator.receivedTemplate).Some? then Ok(old(orchestrator.receivedTemplate).value) else Err(NothingReceived)
  {
    var _ := orchestrator.DepositChunk(artifact);
    r := orchestrator.LastReceivedTemplate();
  }
}
