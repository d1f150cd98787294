/** The React context variant of the bet list: a provider owns the list and
    offers append, update-by-id and remove-by-id; `useBets` fails outside a provider. */
module BetContext {
  import opened Wrappers
  import opened Bets

  const NoProviderError := "useBets must be used within a BetProvider"

  class BetProvider {
    var placedBets: seq<PlacedBet>

    constructor ()
      ensures placedBets == []
    {
      placedBets := [];
    }

    method AddBet(bet: PlacedBet)
      modifies this
      ensures placedBets == old(placedBets) + [bet]
    {
      placedBets := placedBets + [bet];
    }

    method UpdateBet(betId: string, updates: BetUpdate)
      modifies this
      ensures placedBets == UpdateById(old(placedBets), betId, updates)
    {
      placedBets := UpdateById(placedBets, betId, updates);
    }

    method RemoveBet(betId: string)
      modifies this
      ensures placedBets == RemoveById(old(placedBets), betId)
    {
      placedBets := RemoveById(placedBets, betId);
    }
  }

  /** `useBets()`: the nearest provider, or the error the hook throws without one. */
  function UseBets(context: Option<BetProvider>): (r: Result<BetProvider, string>)
    ensures r.Ok? <==> context.Some?
    ensures r.Ok? ==> r.value == context.value
    ensures r.Err? ==> r.error == NoProviderError
  {
    match context
    case None => Err(NoProviderError)
    case Some(p) => Ok(p)
  }
}
