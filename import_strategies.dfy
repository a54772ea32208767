/** Choosing an import strategy for an uploaded file
    (server/utils/import-strategies/index.ts): the first registered strategy
    that recognises the file wins. */
module ImportStrategies {
  import opened Wrappers
  import opened ImportTypes
  import opened Lists
  import AppleCard

  /** The registered strategies. */
  datatype Strategy = AppleCardStrategy {
    function Name(): string {
      match this
      case AppleCardStrategy => AppleCard.Name
    }

    predicate CanHandle(filename: string, content: string) {
      match this
      case AppleCardStrategy => AppleCard.CanHandle(filename, content)
    }

    function Parse(content: string, parsers: AppleCard.Parsers): Result<seq<NormalizedTransaction>, string> {
      match this
      case AppleCardStrategy => AppleCard.Parse(content, parsers)
    }
  }

  /** The registration order. */
  const Strategies: seq<Strategy> := [AppleCardStrategy]

  function NoStrategyMessage(filename: string): string {
    "No import strategy found for file: " + filename
  }

  /** `detectStrategy` over a given registration list: the first strategy
      that handles the file, or an error naming the file. */
  function Detect(strategies: seq<Strategy>, filename: string, content: string): (r: Result<Strategy, string>)
    ensures r.Ok? ==> exists k :: 0 <= k < |strategies| && strategies[k] == r.value &&
                        r.value.CanHandle(filename, content) &&
                        forall j :: 0 <= j < k ==> !strategies[j].CanHandle(filename, content)
    ensures r.Err? <==> forall k :: 0 <= k < |strategies| ==> !strategies[k].CanHandle(filename, content)
    ensures r.Err? ==> r.error == NoStrategyMessage(filename)
  {
    match FindFirst(strategies, (s: Strategy) => s.CanHandle(filename, content))
    case Some(k) => Ok(strategies[k])
    case None => Err(NoStrategyMessage(filename))
  }

  /** `detectStrategy` with the shipped list. */
  function DetectStrategy(filename: string, content: string): Result<Strategy, string> {
    Detect(Strategies, filename, content)
  }

  /** With the shipped list, detection succeeds exactly when the Apple Card
      header check does, and then yields the Apple Card strategy named
      'apple_card'. */
  lemma DetectShipped(filename: string, content: string)
    ensures DetectStrategy(filename, content).Ok? <==> AppleCard.CanHandle(filename, content)
    ensures DetectStrategy(filename, content).Ok? ==>
              DetectStrategy(filename, content).value.Name() == "apple_card"
  {
  }
}
