/** Values shared by the model of the steganographic orchestrator: bytes, the
    results and errors of its operations, and the interface of the
    steganographic injector it drives. */
module StegoTypes {

  newtype byte = x: int | 0 <= x < 256

  /** A chunk, an encoded payload or a carrier artifact. */
  type Bytes = seq<byte>

  datatype Option<+T> = None | Some(value: T)

  /** The exceptions the orchestrator raises or lets through, as values. */
  datatype Error =
    | UnknownTemplate(template: string)   // the injector has no capacity for this name
    | UnknownStream(stream: string)       // the stream has no chunker bucket
    | InjectionFailed(template: string)   // the injector refused the payload
    | NoTemplateGuessed                   // the guess list was empty
    | ExtractionFailed(template: string)  // the injector could not extract a payload
    | NothingReceived                     // no template was recorded yet

  datatype Result<+T> = Ok(value: T) | Err(error: Error)

  /** Python's `str.startswith`. */
  predicate StartsWith(s: string, prefix: string)
  {
    |prefix| <= |s| && s[..|prefix|] == prefix
  }

  /** The steganographic injector as the orchestrator sees it: the registry of
      template names in its enumeration order, and its four queries. How bytes
      are hidden in a carrier is not part of this model. */
  datatype Carrier = Carrier(
    templates: seq<string>,
    capacity: string -> Option<nat>,
    inject: (Bytes, string) -> Option<Bytes>,
    extract: (Bytes, string) -> Option<Bytes>,
    guess: Bytes -> seq<string>)

  /** `DataTransformer.runAll(data, alteration_template)`. */
  type Transformer = (Bytes, string) -> Bytes

  /** The key-cycling algorithm handed to the orchestrator; which one it is
      matters only to the base orchestrator. */
  datatype CyclingAlgorithm = StandardCyclingAlgorithm | CustomCyclingAlgorithm(name: string)

  /** The intermediate function `codec(data, encode)`. */
  type Codec = (Bytes, bool) -> Bytes
}
