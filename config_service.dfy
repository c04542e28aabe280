/**
 * The configuration store (src/app/core/services/config.service.ts): one
 * configuration value, absent at first, replaced by every
 * `fireNewSubject`.  The stream `config$` passes on only present values.
 *
 * Besides the value, the model keeps, as ghost state, the sequence of values
 * the subject has held, so that what `config$` emits can be stated.
 */
module ConfigService {
  import opened DashboardModels

  /** The present values of a history, in order: what `config$` emits. */
  function Present(history: seq<Option<DashboardConfig>>): (r: seq<DashboardConfig>)
    ensures |r| <= |history|
    ensures forall c :: c in r <==> Some(c) in history
  {
    if history == [] then []
    else
      var rest := Present(history[1..]);
      assert forall x :: x in history <==> x == history[0] || x in history[1..];
      if history[0].Some? then [history[0].value] + rest else rest
  }

  /** Adding a value at the end of the history adds it at the end of what is
      emitted; adding an absent value emits nothing. */
  lemma {:induction false} PresentSnoc(history: seq<Option<DashboardConfig>>, v: Option<DashboardConfig>)
    ensures Present(history + [v]) == Present(history) + (if v.Some? then [v.value] else [])
  {
    if history != [] {
      assert (history + [v])[1..] == history[1..] + [v];
      PresentSnoc(history[1..], v);
    } else {
      assert [v][1..] == [];
    }
  }

  class ConfigService {
    /** The subject's current value. */
    var value: Option<DashboardConfig>
    /** Every value the subject has held, the current one last; it stands
        for no state of the program and is kept only to state emissions. */
    ghost var history: seq<Option<DashboardConfig>>

    ghost predicate Valid()
      reads this
    {
      history != [] && history[|history| - 1] == value && history[0] == None
    }

    /** What `config$` has emitted so far. */
    ghost function Emitted(): (r: seq<DashboardConfig>)
      reads this
      ensures forall c :: c in r ==> Some(c) in history
    {
      Present(history)
    }

    /** The value starts absent and nothing has been emitted. */
    constructor()
      ensures Valid()
      ensures value == None && history == [None]
      ensures Emitted() == []
    {
      value := None;
      history := [None];
    }

    /** `fireNewSubject`: the configuration replaces the value, and
        `config$` emits it. */
    method FireNewSubject(c: DashboardConfig)
      requires Valid()
      modifies this
      ensures Valid()
      ensures value == Some(c)
      ensures history == old(history) + [Some(c)]
      ensures Emitted() == old(Emitted()) + [c]
    {
      PresentSnoc(history, Some(c));
      value := Some(c);
      history := history + [Some(c)];
    }
  }

  /** Two settings in a row leave the second: the latest call wins, and both
      are emitted in order. */
  method LatestWins(c1: DashboardConfig, c2: DashboardConfig) returns (last: Option<DashboardConfig>, ghost emitted: seq<DashboardConfig>)
    ensures last == Some(c2)
    ensures emitted == [c1, c2]
  {
    var store := new ConfigService();
    store.FireNewSubject(c1);
    store.FireNewSubject(c2);
    last := store.value;
    emitted := store.Emitted();
  }
}
