# StegoOrchestrator, modelled in Dafny

A model of the orchestration layer of covertutils' `StegoOrchestrator`. It turns
an application message into steganographic carrier artifacts and reverses the
process for one received artifact:

- **Outbound** (`readyMessage`): take the current send template and its byte
  capacity. Set the target stream's chunker to that capacity. Let the base
  orchestrator split and tag the message. Then, for each chunk in order,
  encode it with the intermediate codec, inject it into the template, and run
  the template's alterations over the result, one after the other.
- **Inbound** (`depositChunk`): take the injector's first guessed template and
  record it. Extract the payload with that template, decode it with the codec,
  and pass it to the base orchestrator, whose result comes back unchanged.
- **Session state**: the current send template (initially the main template),
  the last received template (initially unset), and one chunk size per stream.

Files:

- `types.dfy` (`StegoTypes`): bytes, `Option`, `Result` and the error values.
  It also holds the `Carrier` record: the injector's template registry and its
  `getCapacity`, `inject`, `extract` and `guessTemplate` as function values.
- `alterations.dfy` (`TemplateAlterations`): the prefix filter behind
  `getAlterations`, and the chain of `DataTransformer.runAll` calls it drives.
- `pipeline.dfy` (`StegoPipeline`): the per-chunk artifact, `Outbound` over a
  list of chunks, `Inbound` for one artifact, the identity codec
  `_dummy_function`, and the constructor's capacity probe. It also proves
  round-trip lemmas under explicitly stated assumptions about the collaborators.
  The inbound pipeline never undoes alterations, so one of those assumptions
  is that no alteration changes what the injector guesses or extracts.
- `orchestrator.dfy` (`StegoOrchestration`): the `StegoOrchestrator` class. Its
  methods update the session state, and each is proved against the functions
  above. The base orchestrator is an opaque state `S` with three functions:
  `readyMessage`, `depositChunk` and `addStream`.

The collaborators are parameters of the model:

- the steganographic injector;
- the data transformer;
- the codec;
- the base orchestrator's chunking, tagging, key cycling and reassembly.

Their failures are modelled as values:

- `getCapacity` on an unknown template gives `UnknownTemplate`;
- an unregistered stream gives `UnknownStream`;
- a refused injection gives `InjectionFailed`;
- a failed extraction gives `ExtractionFailed`;
- an empty guess list gives `NoTemplateGuessed`;
- reading `received_template` before any deposit gives `NothingReceived`.

Order of effects follows the code:

- In `readyMessage`, the capacity is looked up before the stream. So an
  unknown template is reported even for an unknown stream, and neither error
  changes any state.
- A refused injection happens after the chunk size is set and after the base
  has chunked the message. So that error leaves both changes in place, and it
  returns no artifacts at all.
- `depositChunk` records the guessed template before extracting. So a failed
  extraction still updates the last received template.

The constructor does not enforce any capacity requirement. It computes
`len(codec("0" * capacity, False)) - tag_length` for every template and then
discards the value (lines 62-66). So a template whose probed capacity is
negative, for example capacity 1 with a two-byte tag and the identity codec,
is still accepted. A stricter constructor would reject such a template;
`CapacityViable` states that check, and no operation enforces it. The
constructor has no precondition, and the probe is
`StegoPipeline.ProbedCapacity`.

The constructor also stores a cycling algorithm: the one given, or
`StandardCyclingAlgorithm` when none was given (lines 52-54). The base
constructor receives the raw argument instead (line 60), so when it is None the
stored default never reaches the base.

## Model

| member | source | states |
|---|---|---|
| `TemplateAlterations.Alterations` | covertutils/orchestration/stegoorchestrator.py:103-109 | A name is among the alterations of `t` exactly when it is in the registry and starts with `t + "_alt"`; the list is never longer than the registry |
| `TemplateAlterations.AlterationsKeepRegistryOrder` | covertutils/orchestration/stegoorchestrator.py:104-109 | The alterations are a subsequence of the registry, so their relative order is the registry's |
| `TemplateAlterations.AlterationsMultiplicity` | covertutils/orchestration/stegoorchestrator.py:106-108 | Each matching name occurs as often as in the registry, and each non-matching name occurs not at all (nothing dropped, nothing duplicated) |
| `StegoOrchestration.StegoOrchestrator.GetAlterations` | covertutils/orchestration/stegoorchestrator.py:103-109 | The loop that appends matching names returns exactly `Alterations` of the registry |
| `TemplateAlterations.ApplyAlterationsAppend` | covertutils/orchestration/stegoorchestrator.py:95-97 | Running two alteration lists one after the other equals running their concatenation (a left fold of `runAll`) |
| `TemplateAlterations.ApplyAlterations` | covertutils/orchestration/stegoorchestrator.py:95-97 | The carrier after `runAll` has been run with each alteration in turn. With no alterations it is the carrier itself; otherwise the first alteration acts on the carrier and the rest act on its output, so alterations apply in list order |
| `StegoPipeline.Outbound` | covertutils/orchestration/stegoorchestrator.py:90-100 | The result succeeds exactly when every chunk is injectable. It then has one artifact per chunk, in chunk order, each the injected encoded chunk folded through the alterations. Otherwise it is the injection error, with no partial list |
| `StegoPipeline.Artifact` | covertutils/orchestration/stegoorchestrator.py:92-97 | The artifact of one chunk: `codec(chunk, True)` injected into the template, then folded through its alterations. It is missing exactly when the injector refuses the encoded chunk; with no alterations it is just the injection of the encoded chunk |
| `StegoPipeline.Inbound` | covertutils/orchestration/stegoorchestrator.py:115-118 | Guess, extract with the first guess, and decode with `codec(payload, False)`. It fails with `NoTemplateGuessed` exactly when the guess list is empty, succeeds exactly when extraction with the first guess succeeds, and on success names the first guessed template |
| `StegoPipeline.DummyCodec` | covertutils/orchestration/stegoorchestrator.py:21-22 | `_dummy_function` returns its data unchanged in both directions; `DummyCodecInverse` and `DummyCodecProbe` use it |
| `StegoPipeline.DummyCodecInverse` | covertutils/orchestration/stegoorchestrator.py:21-22 | The default codec `_dummy_function` decodes what it encodes |
| `StegoPipeline.AlterationChainTransparent` | covertutils/orchestration/stegoorchestrator.py:95-97 | If no single alteration of the template changes what the injector guesses or extracts (an explicit assumption), the whole chain changes neither. This is proved by induction over the chain |
| `StegoPipeline.RecoversFromParts` | covertutils/orchestration/stegoorchestrator.py:93-117 | An injector that recognises and extracts its own carriers, with transparent alterations, recovers every artifact sent. With no alterations, transparency holds vacuously |
| `StegoPipeline.ChunkRoundTrip` | covertutils/orchestration/stegoorchestrator.py:92-118 | Three explicit assumptions: the codec is invertible, the injector inverts itself, and the alterations are transparent. Under them, receiving a chunk's artifact yields the sending template and that chunk |
| `StegoPipeline.MessageRoundTrip` | covertutils/orchestration/stegoorchestrator.py:88-120 | Under the same assumptions, receiving a message's artifacts one by one yields its chunks in order, each under the sending template |
| `StegoPipeline.ProbedCapacity` | covertutils/orchestration/stegoorchestrator.py:62-66 | The constructor's probe is defined exactly for templates with a known capacity. It is never below minus the tag length, and with a length-keeping decoder it equals capacity minus tag length |
| `StegoPipeline.DummyCodecProbe` | covertutils/orchestration/stegoorchestrator.py:62-66 | With the identity codec, the probe is capacity minus tag length. A one-byte template with a two-byte tag probes to -1 and fails the unenforced viability check |
| `StegoOrchestration.StegoOrchestrator.constructor` | covertutils/orchestration/stegoorchestrator.py:40-60 | The current template starts as the main template, and no template has been received. Every initial stream is registered with no chunk size set. The collaborators are stored, and no capacity condition is required. The stored cycling algorithm is the given one or the standard one, while the base is built from the raw argument |
| `StegoOrchestration.StegoOrchestrator.UseTemplate` | covertutils/orchestration/stegoorchestrator.py:71-72 | Sets the current template to any name, unchecked, and changes nothing else |
| `StegoOrchestration.StegoOrchestrator.LastReceivedTemplate` | covertutils/orchestration/stegoorchestrator.py:75-76 | Returns the recorded received template. Before any deposit has recorded one, it fails |
| `StegoOrchestration.StegoOrchestrator.ReadyMessage` | covertutils/orchestration/stegoorchestrator.py:80-100 | Uses the current template and the given stream, or the default stream. An unknown template or unknown stream fails, with no change. Otherwise only that stream's size changes, to the template's capacity. The base state advances by one base chunking, and the result is `Outbound` of the base's chunks. The current and received templates are unchanged, and chunk sizes remain template capacities |
| `StegoOrchestration.StegoOrchestrator.ReadyChunks` | covertutils/orchestration/stegoorchestrator.py:90-100 | The chunk loop with the inner alteration loop computes exactly `Outbound` |
| `StegoOrchestration.StegoOrchestrator.DepositChunk` | covertutils/orchestration/stegoorchestrator.py:113-121 | An empty guess fails before any state changes. Otherwise the first guess is recorded, even when extraction then fails. On success, `codec(extracted, False)` goes to the base deposit, whose result is returned unchanged. Chunk sizes and the current template are untouched |
| `StegoOrchestration.StegoOrchestrator.AddStream` | covertutils/orchestration/stegoorchestrator.py:124-126 | Registers the stream with the base and gives it a fresh chunker with no size. Every other stream's size and both templates are unchanged |
| `StegoOrchestration.SeparateStreams` | covertutils/orchestration/stegoorchestrator.py:84-87 | Adding a stream and then sending on it leaves the default stream's chunk size as it was |
| `StegoOrchestration.ReceiveThenQuery` | covertutils/orchestration/stegoorchestrator.py:115-116 | After a deposit with a non-empty guess, the accessor returns the first guessed template. After one with an empty guess, it returns whatever was recorded before |

## Left out

- Steganographic encoding itself is not modelled. `StegoInjector.inject`, `extract`, `guessTemplate`, `getCapacity` and `getTemplates` are uninterpreted function values. Nothing here constrains how bytes are hidden, so the round trip is proved only under the assumptions `CodecInverse`, `InjectorInverse` and `AlterationsTransparent`, which this code does not promise.
- `DataTransformer.runAll` is an uninterpreted function value. The alteration primitives belong to another component.
- The base `Orchestrator` is opaque. Its compression, chunking, stream tagging, key cycling and reassembly belong to other components. Its state is an opaque `S`. Its `readyMessage`, `depositChunk` and `addStream` are total functions of that state. The `readyMessage` function is also given the stream and the chunk size this layer set. Exceptions they might raise are not modelled, and neither is the chunker object's own state.
- The passphrase, `reverse` flag and `tag_length` reach the base constructor. The model builds the base's initial state with a function of the raw cycling-algorithm argument, and leaves the other base arguments inside that function. The base's default stream is a constructor argument, because its choice is made in the base.
- The stored `cycling_algorithm` field (lines 52-54) is modelled as `cyclingAlgorithm`, and nothing in this class reads it. The base receives the raw argument (line 60), so when the argument is None, the `StandardCyclingAlgorithm` default never reaches the base. What the base then does with None is not part of this model.
- The capacity probe at lines 62-66 is not run by the constructor, because it has no observable effect as written. A codec that raises on the filler, which would make the probe fail construction, is outside the model: codecs are total functions here.
- Exceptions raised by the codec or by `runAll` are not modelled; both are total functions.
- The unused imports (`urandom`, `ascii_letters`, `Chunker`, `StreamIdentifier`) have no behaviour, so they are not modelled. The same goes for the shared mutable default `streams=['main']`, since here the initial streams are an explicit argument.
- Concurrency and transport are not modelled. Every call runs to completion on one instance.
