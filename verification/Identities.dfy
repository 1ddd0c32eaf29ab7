/** Ids minted for what a delivery publishes stand on the log once. */
module Identities {
  import opened Prelude
  import opened Events
  import opened Runs

  /** The id an entry of a kind is known by. */
  type Naming = Payload -> Option<Id>

  predicate MintedBefore(id: Id, ticks: nat) { id.Minted? && id.tick < ticks }

  predicate Just(id: Id, ticks: nat) { id.Minted? && id.tick == ticks }

  /** No two entries of the log have the same. */
  ghost predicate Own(log: seq<Payload>, name: Naming) {
    forall i: nat, j: nat :: i < j < |log| && name(log[i]).Some? ==> name(log[i]) != name(log[j])
  }

  ghost predicate Earlier(log: seq<Payload>, name: Naming, ticks: nat) {
    forall p <- log :: name(p).Some? ==> MintedBefore(name(p).value, ticks)
  }

  /** A delivery publishes one at the most, under an id minted for it. */
  ghost predicate One(ps: seq<Payload>, name: Naming, ticks: nat) {
    && (forall p <- ps :: name(p).Some? ==> Just(name(p).value, ticks))
    && (forall i: nat, j: nat :: i < j < |ps| ==> name(ps[i]).None? || name(ps[j]).None?)
  }

  lemma NoneOrOne(ps: seq<Payload>, name: Naming, ticks: nat)
    requires |ps| <= 1 || forall p <- ps :: name(p).None?
    requires forall p <- ps :: name(p).Some? ==> Just(name(p).value, ticks)
    ensures One(ps, name, ticks)
  {
  }

  lemma OneAmong(before: seq<Payload>, own: seq<Payload>, after: seq<Payload>, name: Naming, ticks: nat)
    requires One(own, name, ticks) && forall p <- before + after :: name(p).None?
    ensures One(before + own + after, name, ticks)
  {
    hide Just;
    var all, n := before + own + after, |before|;
    forall i: nat | i < n ensures name(all[i]).None? { assert all[i] in before + after; }
    forall i: nat | n + |own| <= i < |all| ensures name(all[i]).None? {
      assert all[i] == after[i - n - |own|];
      assert all[i] in before + after;
    }
    forall i: nat, j: nat | n <= i < j < n + |own| ensures name(all[i]).None? || name(all[j]).None? {
      assert all[i] == own[i - n] && all[j] == own[j - n];
    }
    forall i: nat, j: nat | i < j < |all| ensures name(all[i]).None? || name(all[j]).None? {
    }
  }

  lemma OwnGrows(log: seq<Payload>, more: seq<Payload>, name: Naming, ticks: nat)
    requires Own(log, name) && Earlier(log, name, ticks) && One(more, name, ticks)
    ensures Own(log + more, name) && Earlier(log + more, name, ticks + 1)
  {
    var all := log + more;
    forall i: nat, j: nat | |log| <= i < j < |all| ensures name(all[i]).None? || name(all[j]).None? {
      assert all[i] == more[i - |log|] && all[j] == more[j - |log|];
    }
    forall i: nat, j: nat | i < |log| && i < j < |all| && name(all[i]).Some? ensures name(all[i]) != name(all[j]) {
      assert all[i] == log[i] && log[i] in log;
      if j < |log| { assert all[j] == log[j]; } else { assert all[j] == more[j - |log|] && more[j - |log|] in more; }
    }
  }

  lemma OneSoFar(ps: seq<Payload>, n: nat, name: Naming, ticks: nat)
    requires One(ps, name, ticks)
    ensures One(Taken(ps, n), name, ticks)
  {
    hide Just;
    forall p | p in Taken(ps, n) ensures p in ps {}
  }

  /** Something of another kind joins the log. */
  lemma OwnStays(log: seq<Payload>, body: Payload, name: Naming, ticks: nat)
    requires Own(log, name) && Earlier(log, name, ticks) && name(body).None?
    ensures Own(log + [body], name) && Earlier(log + [body], name, ticks)
  {
  }

  lemma Later(log: seq<Payload>, name: Naming, ticks: nat)
    requires Earlier(log, name, ticks)
    ensures Earlier(log, name, ticks + 1)
  {
  }

  lemma Unique(log: seq<Payload>, a: Payload, b: Payload, name: Naming)
    requires Own(log, name) && a in log && b in log && name(a).Some? && name(a) == name(b)
    ensures a == b
  {
    var i: nat :| i < |log| && log[i] == a;
    var j: nat :| j < |log| && log[j] == b;
  }
}
