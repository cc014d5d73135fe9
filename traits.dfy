// Values shared by the services and the session layer
// (src/services/traits.rs, src/session/traits.rs).

module Traits {
  import opened Wrappers
  import opened Json

  /** How an element is located. */
  datatype SelectorType = Css | XPath | Text

  /** The derived Debug form of a selector type. */
  function SelectorTypeName(t: SelectorType): string
  {
    match t
    case Css => "Css"
    case XPath => "XPath"
    case Text => "Text"
  }

  /** What a finder script reports about one element. */
  datatype ElementInfo = ElementInfo(elementId: string, tagName: string, textContent: Option<string>)

  /** The value a page hands back from evaluating a script, as the services see it; a number is kept as a real. */
  datatype EvaluationResult =
    | String(s: string)
    | Number(n: real)
    | Bool(b: bool)
    | Null
    | Object(value: Json)
}
