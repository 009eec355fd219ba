/**
 * The `Constants` object: named constants whose assignment notifies an
 * optional update function, once per assignment, after initialisation is
 * complete, and never from inside a notification.
 *
 * The update function is modelled by what it does to the object: it
 * observes the constants (recorded in a log of observations, whose length
 * counts the invocations) and then assigns constants of its own, computed
 * from the constants it observed, each through the same assignment path.
 */
module ChangeNotifier {
  import opened Wrappers

  /** The attribute names that hold the notifier's own state. */
  const Reserved: set<string> := {"_updating", "_update_function", "_init_complete"}

  /** An update function: the constants it assigns, in order, given the constants it observes. */
  datatype Callback<!V> = Callback(writes: map<string, V> -> seq<(string, V)>)

  /** What one invocation of the update function saw: the constants and the re-entrancy flag. */
  datatype Observation<V> = Observation(values: map<string, V>, updating: bool)

  /** One attribute assignment `constants.name = value`. */
  datatype Assignment<!V> =
    | SetUpdating(flag: bool)                           // `_updating`
    | SetInitComplete(flag: bool)                       // `_init_complete`
    | SetUpdateFunction(callback: Option<Callback<V>>)  // `_update_function`
    | SetConstant(name: string, value: V)               // any other name

  /** The whole state of the object; `observed` logs every invocation of the update function. */
  datatype State<!V> = State(
    values: map<string, V>,
    updating: bool,
    initComplete: bool,
    updateFunction: Option<Callback<V>>,
    observed: seq<Observation<V>>)

  /** An update function that assigns only constants, never the reserved names, whatever it observes. */
  ghost predicate CallbackOk<V(!new)>(f: Option<Callback<V>>)
  {
    f.Some? ==> forall values: map<string, V>, i :: 0 <= i < |f.value.writes(values)| ==> f.value.writes(values)[i].0 !in Reserved
  }

  ghost predicate AssignmentOk<V(!new)>(a: Assignment<V>)
  {
    match a
    case SetConstant(name, _) => name !in Reserved
    case SetUpdateFunction(f) => CallbackOk(f)
    case _ => true
  }

  /** The object right after `__init__`. */
  function Initial<V(!new)>(updateFunction: Option<Callback<V>>): (s: State<V>)
  {
    State(map[], false, false, updateFunction, [])
  }

  /**
   * `__setattr__`: the value is stored first; then, for a constant (not a
   * reserved name), when no notification is running and initialisation is
   * complete, the flag is raised, the update function (if any) is invoked,
   * and the flag is lowered again.
   */
  function AfterSet<V(!new)>(s: State<V>, a: Assignment<V>): (r: State<V>)
    requires AssignmentOk(a) && CallbackOk(s.updateFunction)
    ensures CallbackOk(r.updateFunction)
    ensures a.SetConstant? ==> r.updating == s.updating
    decreases if s.updating then 0 else 2, 0
  {
    match a
    case SetUpdating(flag) => s.(updating := flag)
    case SetInitComplete(flag) => s.(initComplete := flag)
    case SetUpdateFunction(f) => s.(updateFunction := f)
    case SetConstant(name, value) =>
      var stored := s.(values := s.values[name := value]);
      if s.updating || !s.initComplete then stored
      else
        var raised := stored.(updating := true);
        var notified :=
          if raised.updateFunction.None? then raised
          else Invoke(raised, raised.updateFunction.value);
        notified.(updating := false)
  }

  /** One invocation of the update function: it observes the object, then makes its assignments. */
  function Invoke<V(!new)>(s: State<V>, f: Callback<V>): (r: State<V>)
    requires s.updating && CallbackOk(s.updateFunction) && CallbackOk(Some(f))
    ensures r.updating
    decreases 1, |f.writes(s.values)| + 1
  {
    var seen := s.(observed := s.observed + [Observation(s.values, s.updating)]);
    AssignAll(seen, f.writes(s.values))
  }

  /** The update function's own assignments, in order, each through `__setattr__`. */
  function AssignAll<V(!new)>(s: State<V>, writes: seq<(string, V)>): (r: State<V>)
    requires s.updating && CallbackOk(s.updateFunction)
    requires forall i :: 0 <= i < |writes| ==> writes[i].0 !in Reserved
    ensures r.updating && CallbackOk(r.updateFunction)
    decreases 1, |writes|
  {
    if writes == [] then s
    else AssignAll(AfterSet(s, SetConstant(writes[0].0, writes[0].1)), writes[1..])
  }

  /** The constants after storing each of `writes` in order, with no notification. */
  function StoreAll<V(!new)>(values: map<string, V>, writes: seq<(string, V)>): (r: map<string, V>)
    decreases |writes|
  {
    if writes == [] then values else StoreAll(values[writes[0].0 := writes[0].1], writes[1..])
  }

  // ---------------------------------------------------------------- properties

  /**
   * While a notification runs, an assignment only stores its value: the
   * update function is not invoked again, so the callback's own assignments
   * never recurse.
   */
  lemma AssignWhileUpdating<V(!new)>(s: State<V>, a: Assignment<V>)
    requires AssignmentOk(a) && CallbackOk(s.updateFunction) && s.updating && a.SetConstant?
    ensures AfterSet(s, a) == s.(values := s.values[a.name := a.value])
  {
  }

  /** All of the update function's assignments are stored and none of them notifies. */
  lemma {:induction false} AssignAllStores<V(!new)>(s: State<V>, writes: seq<(string, V)>)
    requires s.updating && CallbackOk(s.updateFunction)
    requires forall i :: 0 <= i < |writes| ==> writes[i].0 !in Reserved
    ensures AssignAll(s, writes) == s.(values := StoreAll(s.values, writes))
    decreases |writes|
  {
    if writes != [] {
      var next := AfterSet(s, SetConstant(writes[0].0, writes[0].1));
      AssignWhileUpdating(s, SetConstant(writes[0].0, writes[0].1));
      AssignAllStores(next, writes[1..]);
    }
  }

  /**
   * Assigning a constant after initialisation, outside a notification, with
   * an update function set, invokes it exactly once; the invocation sees the
   * new value already stored and the flag raised, and the flag is lowered
   * afterwards.
   */
  lemma NotifiesExactlyOnce<V(!new)>(s: State<V>, name: string, value: V)
    requires name !in Reserved && CallbackOk(s.updateFunction)
    requires s.initComplete && !s.updating && s.updateFunction.Some?
    ensures var r := AfterSet(s, SetConstant(name, value));
      && |r.observed| == |s.observed| + 1
      && r.observed[..|s.observed|] == s.observed
      && r.observed[|s.observed|] == Observation(s.values[name := value], true)
      && !r.updating
      && r.values == StoreAll(s.values[name := value], s.updateFunction.value.writes(s.values[name := value]))
  {
    var raised := s.(values := s.values[name := value], updating := true);
    var f := s.updateFunction.value;
    var seen := raised.(observed := raised.observed + [Observation(raised.values, true)]);
    AssignAllStores(seen, f.writes(seen.values));
    assert seen.observed[..|s.observed|] == s.observed;
  }

  /** Before initialisation is complete, assigning a constant only stores it. */
  lemma SilentBeforeInit<V(!new)>(s: State<V>, name: string, value: V)
    requires name !in Reserved && CallbackOk(s.updateFunction) && !s.initComplete
    ensures AfterSet(s, SetConstant(name, value)) == s.(values := s.values[name := value])
  {
  }

  /** Assigning any of the reserved names stores it and never invokes the update function. */
  lemma ReservedNeverNotifies<V(!new)>(s: State<V>, a: Assignment<V>)
    requires AssignmentOk(a) && CallbackOk(s.updateFunction) && !a.SetConstant?
    ensures AfterSet(s, a).observed == s.observed && AfterSet(s, a).values == s.values
  {
  }

  /**
   * Without an update function nothing is invoked: the constant is stored,
   * and the flag is raised and lowered around the missing call.
   */
  lemma NoFunctionNoCall<V(!new)>(s: State<V>, name: string, value: V)
    requires name !in Reserved && CallbackOk(s.updateFunction) && s.updateFunction.None?
    ensures AfterSet(s, SetConstant(name, value)) == s.(values := s.values[name := value])
  {
  }

  /** `get(name, default)`: the constant's value if it was assigned, else `default`. */
  function GetConstant<V(!new)>(s: State<V>, name: string, default: V): (v: V)
    requires name !in Reserved
    ensures name in s.values ==> v == s.values[name]
    ensures name !in s.values ==> v == default
  {
    Lookup(s.values, name, default)
  }

  /** Reading a constant back: an assignment that notifies nothing is visible through `get`. */
  lemma GetAfterSet<V(!new)>(s: State<V>, name: string, value: V, default: V)
    requires name !in Reserved && CallbackOk(s.updateFunction)
    requires s.updating || !s.initComplete || s.updateFunction.None?
    ensures GetConstant(AfterSet(s, SetConstant(name, value)), name, default) == value
  {
  }

  // ---------------------------------------------------------------- the object

  class Constants<V(!new)> {
    var values: map<string, V>
    var updating: bool
    var initComplete: bool
    var updateFunction: Option<Callback<V>>
    var observed: seq<Observation<V>>

    function Snapshot(): State<V>
      reads this
    {
      State(values, updating, initComplete, updateFunction, observed)
    }

    /** `__init__`: not updating, initialisation not complete, the given update function, no constants. */
    constructor (updateFunction: Option<Callback<V>>)
      requires CallbackOk(updateFunction)
      ensures Snapshot() == Initial(updateFunction)
    {
      values := map[];
      updating := false;
      initComplete := false;
      this.updateFunction := updateFunction;
      observed := [];
    }

    /** `__setattr__`. */
    method SetAttr(a: Assignment<V>)
      requires AssignmentOk(a) && CallbackOk(updateFunction)
      modifies this
      ensures Snapshot() == AfterSet(old(Snapshot()), a)
      decreases if updating then 0 else 2, 0
    {
      match a {
        case SetUpdating(flag) =>
          updating := flag;
        case SetInitComplete(flag) =>
          initComplete := flag;
        case SetUpdateFunction(f) =>
          updateFunction := f;
        case SetConstant(name, value) =>
          values := values[name := value];
          if !updating && initComplete {
            updating := true;
            if updateFunction.Some? {
              CallUpdate(updateFunction.value);
            }
            updating := false;
          }
      }
    }

    /** The update function's invocation: it observes the object, then assigns its constants in order. */
    method CallUpdate(f: Callback<V>)
      requires updating && CallbackOk(updateFunction) && CallbackOk(Some(f))
      modifies this
      ensures Snapshot() == Invoke(old(Snapshot()), f)
      decreases 1, |f.writes(values)| + 1
    {
      var writes := f.writes(values);
      observed := observed + [Observation(values, updating)];
      var i := 0;
      while i < |writes|
        invariant i <= |writes| && updating && CallbackOk(updateFunction)
        invariant forall j :: 0 <= j < |writes| ==> writes[j].0 !in Reserved
        invariant AssignAll(Snapshot(), writes[i..]) == Invoke(old(Snapshot()), f)
        decreases |writes| - i
      {
        var (name, value) := writes[i];
        assert writes[i..][1..] == writes[i + 1..];
        SetAttr(SetConstant(name, value));
        i := i + 1;
      }
    }

    /** `get(name, default)` for a constant. */
    method Get(name: string, default: V) returns (v: V)
      requires name !in Reserved
      ensures v == GetConstant(Snapshot(), name, default)
    {
      v := Lookup(values, name, default);
    }
  }
}
