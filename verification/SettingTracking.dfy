/** Change tracking of settings and of object identifiers: current values, values last
    reported, and the flag that says whether they differ. */
module SettingTracking {
  import opened Wrappers

  // ---------------------------------------------------------------- one setting of one object

  /** A value of a setting; `Nil` is allowed for some settings only. */
  datatype Content<V> = Nil | Is(v: V)

  /** The explicit value a setting has now and had when changes were last reported, if any. */
  datatype Track<V> = Track(current: Option<Content<V>>, reported: Option<Content<V>>, dirty: bool)

  datatype Assigned<V> = ToDefault | To(c: Content<V>)

  datatype Operation<V> = Set(x: Assigned<V>) | Load(c: Content<V>) | Undo | Report

  datatype Rules<V> = Rules(default: Content<V>, nillable: bool)

  function After<V(==)>(t: Track<V>, op: Operation<V>, rules: Rules<V>): Track<V> {
    match op
    case Set(ToDefault) =>
      if t.current.None? then t else Track(None, t.reported, t.reported.Some?)
    case Set(To(c)) =>
      if (c.Nil? && !rules.nillable) || t.current == Some(c) then t
          else Track(Some(c), t.reported, t.reported != Some(c))
    case Load(c) =>
      if c.Nil? && !rules.nillable then t else Track(Some(c), Some(c), false)
    case Undo => Track(t.reported, t.reported, false)
    case Report => Track(t.current, t.current, false)
  }

  function Effective<V>(x: Option<Content<V>>, rules: Rules<V>): Content<V> {
    if x.Some? then x.value else rules.default
  }

  /** A reported change: the effective value before and after. */
  datatype Modified<V> = Modified(before: Content<V>, after: Content<V>)

  function Reported<V>(t: Track<V>, rules: Rules<V>): Option<Modified<V>> {
    if t.dirty then Some(Modified(Effective(t.reported, rules), Effective(t.current, rules))) else None
  }

  function Run<V(==)>(t: Track<V>, ops: seq<Operation<V>>, rules: Rules<V>): Track<V> {
    if ops == [] then t else After(Run(t, ops[..|ops| - 1], rules), ops[|ops| - 1], rules)
  }

  ghost predicate Exact<V>(t: Track<V>) {
    t.dirty <==> t.current != t.reported
  }

  /** On every run a setting is dirty exactly when its value differs from the value last
      reported, having no explicit value counting as a value. */
  lemma {:induction false} DirtyIsExact<V>(t: Track<V>, ops: seq<Operation<V>>, rules: Rules<V>)
    requires Exact(t)
    ensures Exact(Run(t, ops, rules))
    decreases |ops|
  {
    if ops != [] {
      DirtyIsExact(t, ops[..|ops| - 1], rules);
    }
  }

  /** An observer that starts with the default and follows the changes it is told about; it is
      also told when stored data is loaded. */
  function Observed<V(==)>(t: Track<V>, ops: seq<Operation<V>>, rules: Rules<V>): Content<V> {
    if ops == [] then Effective(t.reported, rules)
    else
      var before := Observed(t, ops[..|ops| - 1], rules);
      var now := Run(t, ops[..|ops| - 1], rules);
      match ops[|ops| - 1]
      case Report => if Reported(now, rules).Some? then Reported(now, rules).value.after else before
      case Load(c) => if c.Nil? && !rules.nillable then before else c
      case _ => before
  }

  /** The observer always has the value last reported, every report starts from what it has,
      and it has the current value whenever there is nothing to report. */
  lemma {:induction false} ReportsRebuildTheValue<V>(t: Track<V>, ops: seq<Operation<V>>, rules: Rules<V>)
    requires Exact(t)
    ensures var now := Run(t, ops, rules);
            && Observed(t, ops, rules) == Effective(now.reported, rules)
            && (Reported(now, rules).Some? ==> Reported(now, rules).value.before == Observed(t, ops, rules))
            && (Reported(now, rules).None? ==> Effective(now.current, rules) == Observed(t, ops, rules))
    decreases |ops|
  {
    DirtyIsExact(t, ops, rules);
    if ops != [] {
      ReportsRebuildTheValue(t, ops[..|ops| - 1], rules);
      DirtyIsExact(t, ops[..|ops| - 1], rules);
    }
  }

  /** Whether a value is allowed. */
  predicate Allowed<V>(c: Content<V>, rules: Rules<V>) {
    c.Is? || rules.nillable
  }

  /** Nothing but assignments. */
  ghost predicate OnlySets<V>(ops: seq<Operation<V>>) {
    forall i :: 0 <= i < |ops| ==> ops[i].Set?
  }

  ghost predicate OnlyReports<V>(ops: seq<Operation<V>>) {
    forall i :: 0 <= i < |ops| ==> ops[i].Report?
  }

  lemma {:induction false} SetsKeepReported<V>(t: Track<V>, ops: seq<Operation<V>>, rules: Rules<V>)
    requires OnlySets(ops)
    ensures Run(t, ops, rules).reported == t.reported
    decreases |ops|
  {
    if ops != [] {
      assert ops[|ops| - 1].Set?;
      SetsKeepReported(t, ops[..|ops| - 1], rules);
    }
  }

  lemma {:induction false} ReportsKeepCurrent<V>(t: Track<V>, ops: seq<Operation<V>>, rules: Rules<V>)
    requires OnlyReports(ops)
    ensures Run(t, ops, rules).current == t.current
    ensures ops != [] ==> Run(t, ops, rules).reported == t.current
    decreases |ops|
  {
    if ops != [] {
      assert ops[|ops| - 1].Report?;
      ReportsKeepCurrent(t, ops[..|ops| - 1], rules);
    }
  }

  /** The value set is the value the setting has from then on, however often it is reported, and it is the one
      reported; a value that is not allowed changes nothing, and a reset brings back the default. */
  lemma SetIsCurrent<V>(t: Track<V>, c: Content<V>, reports: seq<Operation<V>>, rules: Rules<V>)
    requires OnlyReports(reports)
    ensures !Allowed(c, rules) ==> After(t, Set(To(c)), rules) == t
    ensures Allowed(c, rules) ==>
              var now := Run(After(t, Set(To(c)), rules), reports, rules);
              Effective(now.current, rules) == c && (reports != [] ==> Effective(now.reported, rules) == c)
    ensures var now := Run(After(t, Set(ToDefault), rules), reports, rules);
            && now.current == None && Effective(now.current, rules) == rules.default
            && (reports != [] ==> now.reported == None)
  {
    ReportsKeepCurrent(After(t, Set(To(c)), rules), reports, rules);
    ReportsKeepCurrent(After(t, Set(ToDefault), rules), reports, rules);
    hide Run;
  }

  /** A value loaded is the one the setting has and the one it reported, so that there is nothing to report. */
  lemma LoadIsReported<V>(t: Track<V>, c: Content<V>, rules: Rules<V>)
    requires Exact(t)
    ensures !Allowed(c, rules) ==> After(t, Load(c), rules) == t
    ensures Allowed(c, rules) ==>
              var now := After(t, Load(c), rules);
              Effective(now.current, rules) == c && Effective(now.reported, rules) == c && Reported(now, rules) == None
  {
  }

  /** Whatever was set since the last report, undoing it brings back the value reported then, having no explicit
      value included, and leaves nothing to report; reporting it instead keeps it and leaves nothing to report. */
  lemma UndoGoesBack<V>(t: Track<V>, sets: seq<Operation<V>>, rules: Rules<V>)
    requires OnlySets(sets)
    ensures var changed := Run(After(t, Report, rules), sets, rules);
            && var undone := After(changed, Undo, rules);
            && undone.current == t.current && undone.reported == t.current && Reported(undone, rules) == None
            && var told := After(changed, Report, rules);
            told.current == changed.current && told.reported == changed.current && Reported(told, rules) == None
  {
    SetsKeepReported(After(t, Report, rules), sets, rules);
    hide Run;
  }

  /** A setting with its values for all objects. */
  class Setting<Obj(==), V(==)> {
    const rules: Rules<V>
    var values: map<Obj, Content<V>>
    var oldvalues: map<Obj, Content<V>>
    var dirty: map<Obj, bool>

    constructor (rules: Rules<V>)
      ensures this.rules == rules && values == map[] && oldvalues == map[] && dirty == map[]
    {
      this.rules := rules;
      values, oldvalues, dirty := map[], map[], map[];
    }

    function TrackOf(o: Obj): Track<V>
      reads this
    {
      Track(if o in values then Some(values[o]) else None, if o in oldvalues then Some(oldvalues[o])
          else None, o in dirty && dirty[o])
    }

    ghost predicate OnlyChanged(o: Obj, values': map<Obj, Content<V>>, oldvalues': map<Obj, Content<V>>,
        dirty': map<Obj, bool>)
      reads this
    {
      values - {o} == values' - {o} && oldvalues - {o} == oldvalues' - {o} && dirty - {o} == dirty' - {o}
    }

    function Get(o: Obj): (c: Content<V>)
      reads this
      ensures c == Effective(TrackOf(o).current, rules)
    {
      if o in values then values[o] else rules.default
    }

    /** Assigns a value; an error if it is Nil and that is not allowed. */
    method Assign(o: Obj, x: Assigned<V>) returns (ok: bool)
      modifies this
      ensures ok <==> !(x.To? && x.c.Nil? && !rules.nillable)
      ensures TrackOf(o) == After(old(TrackOf(o)), Set(x), rules)
      ensures OnlyChanged(o, old(values), old(oldvalues), old(dirty))
    {
      match x
      case ToDefault =>
        if o in values {
          values := values - {o};
          dirty := dirty[o := o in oldvalues];
        }
        ok := true;
      case To(c) =>
        if c.Nil? && !rules.nillable {
          return false;
        }
        if o in values && values[o] == c {
          return true;
        }
        values := values[o := c];
        dirty := dirty[o := !(o in oldvalues && oldvalues[o] == c)];
        ok := true;
    }

    /** Takes a stored value. */
    method Restore(o: Obj, c: Content<V>) returns (ok: bool)
      modifies this
      ensures ok <==> !(c.Nil? && !rules.nillable)
      ensures TrackOf(o) == After(old(TrackOf(o)), Load(c), rules)
      ensures OnlyChanged(o, old(values), old(oldvalues), old(dirty))
    {
      if c.Nil? && !rules.nillable {
        return false;
      }
      values := values[o := c];
      oldvalues := oldvalues[o := c];
      dirty := dirty[o := false];
      ok := true;
    }

    method GetModified(o: Obj) returns (m: Option<Modified<V>>)
      modifies this
      ensures m == Reported(old(TrackOf(o)), rules)
      ensures TrackOf(o) == After(old(TrackOf(o)), Report, rules)
      ensures OnlyChanged(o, old(values), old(oldvalues), old(dirty))
    {
      if o in dirty && dirty[o] {
        m := Some(Modified(if o in oldvalues then oldvalues[o] else rules.default, Get(o)));
      } else {
        m := None;
      }
      if o in values {
        oldvalues := oldvalues[o := values[o]];
      } else {
        oldvalues := oldvalues - {o};
      }
      dirty := dirty[o := false];
    }

    method UndoChange(o: Obj)
      modifies this
      ensures TrackOf(o) == After(old(TrackOf(o)), Undo, rules)
      ensures OnlyChanged(o, old(values), old(oldvalues), old(dirty))
    {
      if o in oldvalues {
        values := values[o := oldvalues[o]];
      } else {
        values := values - {o};
      }
      dirty := dirty[o := false];
    }
  }

  // ---------------------------------------------------------------- identifiers

  /** The identifiers objects have now and had when changes were last reported. */
  datatype Ids<!Obj, Id> = Ids(values: map<Obj, Id>, oldvalues: map<Obj, Id>, dirty: map<Obj, bool>)

  predicate Taken<Obj, Id(==)>(s: Ids<Obj, Id>, id: Id) {
    id in s.values.Values || id in s.oldvalues.Values
  }

  datatype IdOperation<Obj, Id> = SetId(o: Obj, id: Id) | UndoId(o: Obj) | ReportId(o: Obj)

  /** The identifiers after an operation; nothing if it fails because the identifier is taken,
      or because the object has none. */
  function AfterId<Obj(==), Id(==)>(s: Ids<Obj, Id>, op: IdOperation<Obj, Id>): Option<Ids<Obj, Id>> {
    match op
    case SetId(o, id) =>
      if o in s.values && s.values[o] == id then Some(s)
      else if o in s.oldvalues && s.oldvalues[o] == id
          then Some(Ids(s.values[o := id], s.oldvalues, s.dirty[o := false]))
      else if Taken(s, id) then None
      else if o in s.values then Some(Ids(s.values[o := id], s.oldvalues, s.dirty[o := true]))
      else Some(Ids(s.values[o := id], s.oldvalues[o := id], s.dirty[o := false]))
    case UndoId(o) =>
      if o in s.oldvalues then Some(Ids(s.values[o := s.oldvalues[o]], s.oldvalues, s.dirty[o := false])) else None
    case ReportId(o) =>
      if o in s.values then Some(Ids(s.values, s.oldvalues[o := s.values[o]], s.dirty[o := false])) else None
  }

  function RunIds<Obj(==), Id(==)>(s: Ids<Obj, Id>, ops: seq<IdOperation<Obj, Id>>): Ids<Obj, Id> {
    if ops == [] then s
    else
      var before := RunIds(s, ops[..|ops| - 1]);
      var after := AfterId(before, ops[|ops| - 1]);
      if after.Some? then after.value else before
  }

  /** No identifier an object has, or had before unsaved changes, belongs to another object;
      an object is marked as changed exactly when its identifier is not the one reported. */
  ghost predicate Separate<Obj, Id>(s: Ids<Obj, Id>) {
    && s.values.Keys == s.oldvalues.Keys
    && (forall o, p :: o in s.values && p in s.values && o != p ==>
         && s.values[o] != s.values[p] && s.values[o] != s.oldvalues[p] && s.oldvalues[o] != s.oldvalues[p])
    && (forall o :: o in s.values ==> ((o in s.dirty && s.dirty[o]) <==> s.values[o] != s.oldvalues[o]))
  }

  lemma StaysSeparate<Obj, Id>(s: Ids<Obj, Id>, op: IdOperation<Obj, Id>)
    requires Separate(s) && AfterId(s, op).Some?
    ensures Separate(AfterId(s, op).value)
  {
    if op.SetId? && !Taken(s, op.id) {
      forall p | p in s.values ensures s.values[p] != op.id && s.oldvalues[p] != op.id {
        assert s.values[p] in s.values.Values && s.oldvalues[p] in s.oldvalues.Values;
      }
    }
  }

  /** Another object has the identifier, or had it when changes were last reported. */
  ghost predicate HeldByOther<Obj, Id>(s: Ids<Obj, Id>, o: Obj, id: Id) {
    || (exists p :: p in s.values && p != o && s.values[p] == id)
    || (exists p :: p in s.oldvalues && p != o && s.oldvalues[p] == id)
  }

  /** All objects but one have and had what they have and had before. */
  ghost predicate OthersKeep<Obj, Id>(s: Ids<Obj, Id>, after: Ids<Obj, Id>, o: Obj) {
    after.values - {o} == s.values - {o} && after.oldvalues - {o} == s.oldvalues - {o}
  }

  /** Setting an identifier fails exactly when another object has or had it, and else the object has it and remembers
      the one it had when changes were last reported, its first one counting as reported.  Undoing brings the remembered
      one back, and reporting makes the present one the one remembered; no other object is affected. */
  lemma IdMoves<Obj, Id>(s: Ids<Obj, Id>, o: Obj, id: Id)
    requires Separate(s)
    ensures AfterId(s, SetId(o, id)).None? <==> HeldByOther(s, o, id)
    ensures AfterId(s, SetId(o, id)).Some? ==>
              var after := AfterId(s, SetId(o, id)).value;
              && o in after.values && after.values[o] == id && o in after.oldvalues
              && after.oldvalues[o] == (if o in s.oldvalues then s.oldvalues[o] else id)
              && OthersKeep(s, after, o)
    ensures o in s.values ==>
              && AfterId(s, UndoId(o)).Some? && AfterId(s, ReportId(o)).Some?
              && var undone, told := AfterId(s, UndoId(o)).value, AfterId(s, ReportId(o)).value;
              && o in undone.values && undone.values[o] == s.oldvalues[o] && undone.oldvalues == s.oldvalues
              && o in told.oldvalues && told.oldvalues[o] == s.values[o] && told.values == s.values
              && OthersKeep(s, undone, o) && OthersKeep(s, told, o)
  {
    if Taken(s, id) && !HeldByOther(s, o, id) {
      if id in s.values.Values {
        var p :| p in s.values && s.values[p] == id;
        assert p == o;
      } else {
        var p :| p in s.oldvalues && s.oldvalues[p] == id;
        assert p == o;
      }
    }
    if HeldByOther(s, o, id) {
      assert Taken(s, id) by {
        if p :| p in s.values && p != o && s.values[p] == id {
          assert s.values[p] in s.values.Values;
        } else {
          var p :| p in s.oldvalues && p != o && s.oldvalues[p] == id;
          assert s.oldvalues[p] in s.oldvalues.Values;
        }
      }
    }
  }

  /** Whatever is set, undone and reported, in whatever order, no identifier is ever held by two
      objects; so undoing a change, even a change of several objects, cannot create a duplicate. */
  lemma {:induction false} IdsStaySeparate<Obj, Id>(s: Ids<Obj, Id>, ops: seq<IdOperation<Obj, Id>>)
    requires Separate(s)
    ensures Separate(RunIds(s, ops))
    decreases |ops|
  {
    if ops != [] {
      IdsStaySeparate(s, ops[..|ops| - 1]);
      var before := RunIds(s, ops[..|ops| - 1]);
      if AfterId(before, ops[|ops| - 1]).Some? {
        StaysSeparate(before, ops[|ops| - 1]);
      }
    }
  }

  class SettingsObjectID<Obj(==), Id(==)> {
    var values: map<Obj, Id>
    var oldvalues: map<Obj, Id>
    var dirty: map<Obj, bool>

    constructor ()
      ensures State() == Ids(map[], map[], map[]) && Separate(State())
    {
      values, oldvalues, dirty := map[], map[], map[];
    }

    function State(): Ids<Obj, Id>
      reads this
    {
      Ids(values, oldvalues, dirty)
    }

    /** Sets the identifier of an object; an error if another object has or had it. */
    method Assign(o: Obj, id: Id) returns (ok: bool)
      modifies this
      ensures var after := AfterId(old(State()), SetId(o, id));
              ok == after.Some? && State() == if ok then after.value else old(State())
    {
      if o in values && values[o] == id {
        return true;
      }
      if o in oldvalues && oldvalues[o] == id {
        values := values[o := oldvalues[o]];
        dirty := dirty[o := false];
        return true;
      }
      if id in values.Values || id in oldvalues.Values {
        return false;
      }
      if o in values {
        values := values[o := id];
        dirty := dirty[o := true];
      } else {
        values, oldvalues := values[o := id], oldvalues[o := id];
        dirty := dirty[o := false];
      }
      return true;
    }

    method GetModified(o: Obj) returns (m: Option<(Id, Id)>)
      requires o in values && Separate(State())
      modifies this
      ensures Some(State()) == AfterId(old(State()), ReportId(o)) && Separate(State())
      ensures m == if old(values[o]) != old(oldvalues[o]) then Some((old(oldvalues[o]), old(values[o]))) else None
    {
      StaysSeparate(State(), ReportId(o));
      m := if o in dirty && dirty[o] then Some((oldvalues[o], values[o])) else None;
      oldvalues := oldvalues[o := values[o]];
      dirty := dirty[o := false];
    }

    method UndoChange(o: Obj)
      requires o in oldvalues
      modifies this
      ensures Some(State()) == AfterId(old(State()), UndoId(o))
    {
      values := values[o := oldvalues[o]];
      dirty := dirty[o := false];
    }
  }
}
