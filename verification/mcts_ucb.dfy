/** The Monte Carlo agent run with the store-based UCB selector (src/selectors/ucb.rs). */
module MctsUcb {
  import opened Outcomes
  import opened StoreSelection
  import opened Mcts
  import UcbStore

  /**
    With the store-based UCB selector, whose value update is not implemented, every
    episode that finishes its forward pass panics on the first backward update.
   */
  lemma UcbEpisodePanics(ucb: UcbStore.UcbSelector, entries: seq<Entry>, q: map<string, real>, v: map<string, real>,
                         counts: map<string, real>, stateCounts: map<string, real>)
    requires |entries| >= 1 && AllCounted(entries, counts)
    ensures Defined(ucb.AsStoreSelector())
    ensures BackwardPass(ucb.AsStoreSelector(), entries, |entries|, q, v, counts, stateCounts) == Err(NotImplemented)
  {
    var selector := ucb.AsStoreSelector();
    forall v', sc, s, g
      ensures selector.newV(v', sc, s, g) == Err(NotImplemented)
    {
      var r := ucb.GetNewValueEstimate(v', sc, s, g);
    }
    BackwardPanicsAtOnce(selector, entries, q, v, counts, stateCounts);
  }
}
