/** A plan's life read off the log: what is done about it, what is due, and what a crash or a stop makes of it. */
module PlanLog {
  import opened Prelude
  import opened Events
  import opened PlanLife

  function EntryIn(i: Item): Option<Entry> {
    match i
    case Noting(id) => Some(Entry(id, false, None))
    case Fixing(id, outcome) => Some(Entry(id, true, Some(outcome)))
    case _ => None
  }

  /** The prediction history the events done make. */
  function History(items: seq<Item>): seq<Entry> {
    Project(items, EntryIn)
  }

  /** The prediction they leave pending. */
  function Pending(items: seq<Item>): Option<Id> {
    if items == [] then None
    else
      match items[|items| - 1]
      case Noting(id) => Some(id)
      case Reported(_, _) => None
      case _ => Pending(items[..|items| - 1])
  }

  /** The outcomes recorded, each with the action it is of. */
  function Reports(items: seq<Item>): seq<(Id, Id)> {
    Project(items, ReportOf)
  }

  predicate IsProposal(i: Item) { i.Proposing? }
  predicate IsGrant(i: Item) { i.Granting? && i.actions > 0 }
  predicate IsNote(i: Item) { i.Noting? }
  predicate IsFix(i: Item) { i.Fixing? }

  ghost predicate Has(items: seq<Item>, f: Item -> bool) {
    exists i <- items :: f(i)
  }

  ghost function ViewOf(done: seq<Item>, due: seq<Item>): View {
    View(Has(done, IsProposal), Has(done, IsGrant), History(done), Pending(done), Reports(done + due), due)
  }

  /** Nothing is done about a plan before it is proposed, and what is done about it follows its life. */
  ghost predicate InLife(done: seq<Item>, due: seq<Item>, whole: bool) {
    Good(ViewOf(done, due), whole) && (done != [] ==> Has(done, IsProposal))
  }

  /**
   What Memory promises of a plan the log proposes. If the log grants it something to do, its prediction was
   resolved once, by the outcome the log records first, which is that of its first ordered action. If not, its
   prediction is pending and nothing was done for it.
   */
  ghost predicate ByFirstOutcome(history: seq<Entry>, pending: Option<Id>, items: seq<Item>) {
    var outcomes := Reports(items);
    Has(items, IsProposal) ==>
      if Has(items, IsGrant)
      then |history| == 2 && outcomes != [] && pending == None && IsFirstAction(outcomes[0].1)
           && history == [Entry(history[0].predictionId, false, None), Entry(history[0].predictionId, true, Some(outcomes[0].0))]
      else |history| == 1 && outcomes == [] && pending == Some(history[0].predictionId)
           && history == [Entry(history[0].predictionId, false, None)]
  }

  // ---------------------------------------------------------------- pieces of a log

  lemma HasParts(a: seq<Item>, b: seq<Item>, f: Item -> bool)
    ensures Has(a + b, f) <==> Has(a, f) || Has(b, f)
  {
    if Has(a, f) { var i :| i in a && f(i); assert i in a + b; }
    if Has(b, f) { var i :| i in b && f(i); assert i in a + b; }
  }

  lemma HasOne(i: Item, f: Item -> bool)
    ensures Has([i], f) <==> f(i)
  {
    assert i in [i];
  }

  lemma HistoryParts(a: seq<Item>, b: seq<Item>)
    ensures History(a + b) == History(a) + History(b) && Reports(a + b) == Reports(a) + Reports(b)
  {
    ProjectConcat(a, b, EntryIn);
    ProjectConcat(a, b, ReportOf);
  }

  lemma PendingSnoc(items: seq<Item>, i: Item)
    ensures Pending(items + [i]) == match i case Noting(id) => Some(id) case Reported(_, _) => None case _ => Pending(items)
  {
    assert (items + [i])[..|items|] == items;
  }

  /** As long as no prediction is recorded, reports only take away what is pending. */
  lemma {:induction false} PendingOver(done: seq<Item>, due: seq<Item>)
    requires !Has(due, IsNote)
    ensures Pending(done + due) == if Reports(due) == [] then Pending(done) else None
  {
    hide Project;
    if due == [] {
      assert done + due == done;
      assert Reports([]) == [] by { ProjectNothing([], ReportOf); }
    } else {
      var front, last := due[..|due| - 1], due[|due| - 1];
      assert due == front + [last] && done + due == done + front + [last];
      HasParts(front, [last], IsNote);
      HasOne(last, IsNote);
      PendingOver(done, front);
      PendingSnoc(done + front, last);
      ProjectSnoc(front, last, ReportOf);
    }
  }

  lemma LateSays(q: seq<Item>)
    requires All(q, Late)
    ensures History(q) == [] && !Has(q, IsProposal) && !Has(q, IsNote) && !Has(q, IsFix)
  {
    forall i | i in q ensures EntryIn(i) == None && !IsProposal(i) && !IsNote(i) && !IsFix(i) { assert Late(i); }
    ProjectNothing(q, EntryIn);
  }

  lemma CalmIsEarly(q: seq<Item>)
    requires All(q, Calm)
    ensures All(q, Early)
  {
    forall i | i in q ensures Early(i) { assert Calm(i); }
  }

  /** A resolution on the history is one in the log, and the other way round. */
  lemma FixedIffResolved(items: seq<Item>)
    ensures Has(items, IsFix) <==> exists e <- History(items) :: e.resolved
  {
    if Has(items, IsFix) {
      var i :| i in items && IsFix(i);
      var k :| 0 <= k < |items| && items[k] == i;
      ProjectMember(items, EntryIn, k);
    }
    if e :| e in History(items) && e.resolved {
      var k := ProjectOrigin(items, EntryIn, e);
      assert items[k] in items;
    }
  }

  /** What a queue says that is split by the one item that stands out of it. */
  lemma SplitSays(q: seq<Item>, k: nat, before: seq<Item>, i: Item, after: seq<Item>)
    requires k < |q| && before == q[..k] && i == q[k] && after == q[k + 1..] && All(before, Late) && All(after, Late)
    ensures q == before + ([i] + after)
    ensures History(q) == (match EntryIn(i) case None => [] case Some(e) => [e])
    ensures Has(q, IsProposal) <==> IsProposal(i)
    ensures Has(q, IsNote) <==> IsNote(i)
    ensures Has(q, IsFix) <==> IsFix(i)
  {
    hide Project, Has, Late;
    assert q == before + ([i] + after);
    LateSays(before);
    LateSays(after);
    HistoryParts(before, [i] + after);
    HistoryParts([i], after);
    ProjectOne(i, EntryIn);
    forall f: Item -> bool ensures Has(q, f) <==> Has(before, f) || f(i) || Has(after, f) {
      HasParts(before, [i] + after, f);
      HasParts([i], after, f);
      HasOne(i, f);
    }
  }

  // ---------------------------------------------------------------- the phases of a life, and what is due in each

  /** Its prediction is due: nothing has been recorded, and no outcome is. */
  lemma PredictingSays(done: seq<Item>, due: seq<Item>)
    requires Predicting(ViewOf(done, due))
    ensures Has(done, IsProposal) && History(done) == [] && Reports(done + due) == []
    ensures exists id :: History(done + due) == [Entry(id, false, None)] && Pending(done + due) == Some(id)
    ensures Has(due, IsNote) && !Has(due, IsProposal) && !Has(due, IsFix) && !Has(done, IsFix)
  {
    hide Project, Pending, Has;
    var k: nat :| Split(due, k, Calm, Early) && due[k].Noting?;
    var before, i, after := due[..k], due[k], due[k + 1..];
    CalmIsEarly(before);
    EarlyIsLate(before);
    EarlyIsLate(after);
    SplitSays(due, k, before, i, after);
    HistoryParts(done, due);
    LateSays(before);
    LateSays(after);
    PendingOver(done, before);
    PendingSnoc(done + before, i);
    PendingOver(done + before + [i], after);
    assert done + due == done + before + [i] + after;
    FixedIffResolved(done);
    NothingResolved(done);
  }

  lemma NothingResolved(items: seq<Item>)
    requires History(items) == []
    ensures !Has(items, IsFix)
  {
    FixedIffResolved(items);
  }

  /** Its prediction is pending, and only outcomes are due. */
  lemma WaitingSays(done: seq<Item>, due: seq<Item>)
    requires Waiting(ViewOf(done, due))
    ensures Has(done, IsProposal) && !Has(due, IsProposal) && !Has(due, IsNote) && !Has(due, IsFix) && !Has(done, IsFix)
    ensures History(done + due) == History(done) == [Entry(History(done)[0].predictionId, false, None)]
    ensures Pending(done) == Some(History(done)[0].predictionId)
    ensures Pending(done + due) == if Reports(done + due) == [] then Pending(done) else None
  {
    hide Project, Pending, Has;
    LateSays(due);
    HistoryParts(done, due);
    PendingOver(done, due);
    FixedIffResolved(done);
    var v := ViewOf(done, due);
    assert v.history[0] == Entry(v.history[0].predictionId, false, None);
    assert forall e <- History(done) :: e == v.history[0];
    assert Reports(due) == Reports(done + due) by { assert Project(v.queued, ReportOf) == v.outcomes; }
  }

  /** Its resolution is due. */
  lemma ClaimedSays(done: seq<Item>, due: seq<Item>)
    requires Claimed(ViewOf(done, due))
    ensures Has(done, IsProposal) && !Has(due, IsProposal) && !Has(due, IsNote) && Has(due, IsFix)
    ensures |History(done)| == 1 && Pending(done + due) == Pending(done) == None && Reports(done + due) != []
    ensures var first := History(done)[0].predictionId;
            History(done + due) == [Entry(first, false, None), Entry(first, true, Some(Reports(done + due)[0].0))]
  {
    hide Project, Pending, Has;
    var v := ViewOf(done, due);
    var k: nat :| Split(due, k, Late, Late) && due[k] == Fixing(v.history[0].predictionId, v.outcomes[0].0);
    SplitSays(due, k, due[..k], due[k], due[k + 1..]);
    HistoryParts(done, due);
    PendingOver(done, due);
  }

  /** It is resolved. */
  lemma SettledSays(done: seq<Item>, due: seq<Item>)
    requires Settled(ViewOf(done, due))
    ensures Has(done, IsProposal) && !Has(due, IsProposal) && !Has(due, IsNote) && !Has(due, IsFix) && Has(done, IsFix)
    ensures |History(done)| == 2 && Pending(done + due) == Pending(done) == None && Reports(done + due) != []
    ensures var first := History(done)[0].predictionId;
            History(done + due) == History(done) == [Entry(first, false, None), Entry(first, true, Some(Reports(done + due)[0].0))]
  {
    hide Project, Pending, Has;
    LateSays(due);
    HistoryParts(done, due);
    PendingOver(done, due);
    FixedIffResolved(done);
    assert History(done)[1] in History(done);
  }

  /** Its prediction, or the resolution of it, is lost, and nothing due brings it back. */
  lemma LostSays(done: seq<Item>, due: seq<Item>)
    requires Unpredicted(ViewOf(done, due)) || Missed(ViewOf(done, due))
    ensures Has(done, IsProposal) && !Has(due, IsProposal) && !Has(due, IsNote) && !Has(due, IsFix) && !Has(done, IsFix)
    ensures History(done + due) == History(done) && Pending(done + due) == Pending(done) == None
  {
    hide Project, Pending, Has;
    LateSays(due);
    HistoryParts(done, due);
    PendingOver(done, due);
    FixedIffResolved(done);
    assert History(done) + [] == History(done);
    if History(done) != [] { assert forall e <- History(done) :: e == History(done)[0]; }
  }

  /** Whatever has an outcome was granted something to do; its first outcome is its first action's. */
  lemma OutcomesAreOfActions(done: seq<Item>, due: seq<Item>, whole: bool)
    requires InLife(done, due, whole) && Reports(done + due) != []
    ensures Has(done, IsGrant) && IsFirstAction(Reports(done + due)[0].1)
  {
    hide Project, Has;
    var v := ViewOf(done, due);
    assert Actions(v)[0] == ActionsOf(v.outcomes)[0] == v.outcomes[0].1;
  }

  // ---------------------------------------------------------------- what is promised, and when it is kept

  /** A process dies with some of the plan's events still due, and its successor replays them all. */
  lemma CrashKeepsFirstOutcomeIff(done: seq<Item>, due: seq<Item>)
    requires InLife(done, due, true)
    ensures ByFirstOutcome(History(done + due), Pending(done + due), done + due)
            <==> !Has(due, IsProposal) && (Has(done + due, IsGrant) ==> Has(done + due, IsFix))
  {
    hide Project, Pending, Has, Predicting, Waiting, Claimed, Settled, Actions, IsFirstAction;
    var v, items := ViewOf(done, due), done + due;
    forall f: Item -> bool ensures Has(items, f) <==> Has(done, f) || Has(due, f) { HasParts(done, due, f); }
    if Reports(items) != [] { OutcomesAreOfActions(done, due, true); }
    if Unborn(v) {
      UnbornIs(done, due);
    } else if Predicting(v) {
      PredictingSays(done, due);
    } else if Waiting(v) {
      WaitingSays(done, due);
    } else if Claimed(v) {
      ClaimedSays(done, due);
    } else {
      SettledSays(done, due);
    }
  }

  lemma UnbornIs(done: seq<Item>, due: seq<Item>)
    requires (done != [] ==> Has(done, IsProposal)) && Unborn(ViewOf(done, due))
    ensures done == [] && (due == [] || due == [Proposing])
    ensures History(done + due) == [] && History(done) == []
    ensures forall f: Item -> bool :: !Has(done, f) && (Has(due, f) <==> due != [] && f(Proposing))
  {
    hide Project;
    assert done + due == due;
    ProjectNothing([], EntryIn);
    ProjectOne(Proposing, EntryIn);
    forall f: Item -> bool ensures !Has(done, f) && (Has(due, f) <==> due != [] && f(Proposing)) {
      if due != [] { HasOne(Proposing, f); }
    }
  }

  /** A process is stopped with some of the plan's events still due, and they are dropped. */
  lemma HaltKeepsFirstOutcomeIff(done: seq<Item>, due: seq<Item>)
    requires InLife(done, due, true)
    ensures ByFirstOutcome(History(done), Pending(done), done + due)
            <==> !Has(due, IsProposal) && !Has(due, IsNote) && !Has(due, IsFix) && (Has(done + due, IsGrant) ==> Has(done, IsFix))
  {
    hide Project, Pending, Has, Predicting, Waiting, Claimed, Settled, Actions, IsFirstAction;
    var v, items := ViewOf(done, due), done + due;
    forall f: Item -> bool ensures Has(items, f) <==> Has(done, f) || Has(due, f) { HasParts(done, due, f); }
    if Reports(items) != [] { OutcomesAreOfActions(done, due, true); }
    if Unborn(v) {
      UnbornIs(done, due);
    } else if Predicting(v) {
      PredictingSays(done, due);
    } else if Waiting(v) {
      WaitingSays(done, due);
    } else if Claimed(v) {
      ClaimedSays(done, due);
    } else {
      SettledSays(done, due);
    }
  }

  // ---------------------------------------------------------------- after any number of losses

  lemma NothingDone()
    ensures History([]) == [] && Pending([]) == None && Reports([]) == [] && Project([], ActOf) == []
  {
  }

  /** A process dies, and its successor replays all that was done and due: the life goes on from one of its phases. */
  lemma DyingLeavesAPhase(done: seq<Item>, due: seq<Item>)
    requires Left(ViewOf(done, due)) && (done != [] ==> Has(done, IsProposal))
    ensures InPhase(ViewOf(done + due, []), false) && (done + due != [] ==> Has(done + due, IsProposal))
  {
    hide Project, Pending, Has;
    var v, items := ViewOf(done, due), done + due;
    assert items + [] == items;
    NothingDone();
    HasParts(done, due, IsProposal);
    HasParts(done, due, IsGrant);
    if Unborn(v) {
      UnbornIs(done, due);
      assert items == due;
      UnbornDies(due);
    } else if Predicting(v) {
      PredictingSays(done, due);
    } else if Waiting(v) {
      WaitingSays(done, due);
    } else if Claimed(v) {
      ClaimedSays(done, due);
    } else if Settled(v) {
      SettledSays(done, due);
    } else {
      LostSays(done, due);
    }
  }

  lemma UnbornDies(items: seq<Item>)
    requires items == [] || items == [Proposing]
    ensures InPhase(ViewOf(items, []), false) && (items != [] ==> Has(items, IsProposal))
  {
    hide Predicting, Waiting, Claimed, Settled, Missed;
    assert items + [] == items;
    NothingDone();
    if items != [] {
      assert History(items) == [] && Reports(items) == [];
      assert items[..0] == [];
      HasOne(Proposing, IsProposal);
    } else {
      assert !Has(items, IsProposal) && !Has(items, IsGrant);
    }
  }

  lemma DyingKeepsLife(done: seq<Item>, due: seq<Item>)
    requires Left(ViewOf(done, due)) && (done != [] ==> Has(done, IsProposal))
    ensures InLife(done + due, [], false)
  {
    hide Project, Pending, Has, InPhase, IsFirstAction;
    DyingLeavesAPhase(done, due);
    NothingDone();
    HasParts(done, due, IsGrant);
    var w := ViewOf(done + due, []);
    assert done + due + [] == done + due;
    assert Actions(w) == ActionsOf(w.outcomes) + [] == ActionsOf(w.outcomes);
  }

  /** A prediction on the history is one in the log, and the other way round. */
  lemma NotedIffPredicted(items: seq<Item>)
    ensures Has(items, IsNote) <==> exists e <- History(items) :: !e.resolved
  {
    if Has(items, IsNote) {
      var i :| i in items && IsNote(i);
      var k :| 0 <= k < |items| && items[k] == i;
      ProjectMember(items, EntryIn, k);
    }
    if e :| e in History(items) && !e.resolved {
      var k := ProjectOrigin(items, EntryIn, e);
      assert items[k] in items;
    }
  }

  /** The log predicts every plan it proposes, and resolves the prediction of every one it grants something to do. */
  ghost predicate Complete(items: seq<Item>) {
    && (Has(items, IsProposal) ==> Has(items, IsNote))
    && (Has(items, IsGrant) ==> Has(items, IsFix))
  }

  /** Whatever was lost on the way, a life with nothing due keeps the promise exactly when its log is complete. */
  lemma FirstOutcomeIffComplete(items: seq<Item>)
    requires InLife(items, [], false)
    ensures ByFirstOutcome(History(items), Pending(items), items) <==> Complete(items)
  {
    hide Project, Pending, Has, IsFirstAction;
    var v := ViewOf(items, []);
    assert items + [] == items;
    NothingDone();
    FixedIffResolved(items);
    NotedIffPredicted(items);
    if Reports(items) != [] { OutcomesAreOfActions(items, [], false); }
    if Unborn(v) {
      UnbornIs(items, []);
    } else if Settled(v) {
      assert History(items)[0] in History(items) && History(items)[1] in History(items);
    } else if History(items) != [] {
      assert History(items)[0] in History(items);
      assert forall e <- History(items) :: e == History(items)[0];
    }
  }
}
