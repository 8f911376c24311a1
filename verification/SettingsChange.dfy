/**
 What a settings edit means: which fields it names, when the observed state still allows it, and
 when an observation shows that it took effect.
 */
module SettingsChange {

  datatype Option<+T> = None | Some(value: T)

  datatype Quality = Complete | Incomplete

  datatype Endpoint = Endpoint(enabled: bool, host: string, port: nat)

  /** Observed values, by the shapes the fields below can have. */
  datatype Value =
    | Text(text: string)
    | Number(number: int)
    | Place(x: int, y: int)
    | Proxy(endpoint: Endpoint)
    | Items(items: seq<string>)
    | Other(id: nat)

  datatype Field = Field(key: string, writable: bool, value: Option<Value>, quality: Quality)

  /** `other` stands for the name, options and reason of a target, which edits never compare alone. */
  datatype Target = Target(id: string, fields: seq<Field>, other: nat)

  datatype Snapshot = Snapshot(revision: nat, targets: seq<Target>)

  datatype Patch =
    | ProxyPatch(target: string, http: Option<Endpoint>, https: Option<Endpoint>, socks: Option<Endpoint>,
                 bypass: Option<seq<string>>)
    | DisplayPatch(target: string, mode: Option<string>, origin: Option<(int, int)>)
    | PowerPatch(target: string, displayOff: Option<nat>, sleep: Option<nat>, mode: Option<string>)

  datatype Error = Conflict | Denied | Failure

  function If(present: bool, key: string): set<string> {
    if present then {key} else {}
  }

  /** Only membership is ever asked of the edited fields. */
  function EditedFields(p: Patch): set<string> {
    match p
    case ProxyPatch(_, http, https, socks, bypass) =>
      If(http.Some?, "http") + If(https.Some?, "https") + If(socks.Some?, "socks") + If(bypass.Some?, "bypass")
    case DisplayPatch(_, mode, origin) =>
      If(mode.Some?, "mode") + If(origin.Some?, "origin")
    case PowerPatch(_, off, sleep, mode) =>
      If(off.Some?, "displayOffMinutes") + If(sleep.Some?, "sleepMinutes") + If(mode.Some?, "mode")
  }

  /** The first target with this id. */
  function Find(targets: seq<Target>, id: string): (r: Option<Target>)
    ensures r.Some? ==> r.value in targets && r.value.id == id
    ensures r.None? ==> forall t :: t in targets ==> t.id != id
  {
    if targets == [] then None else if targets[0].id == id then Some(targets[0]) else Find(targets[1..], id)
  }

  /** The first field with this key decides, even when it has no value. */
  function ValueAt(fields: seq<Field>, key: string): Option<Value> {
    if fields == [] then None else if fields[0].key == key then fields[0].value else ValueAt(fields[1..], key)
  }

  function SettingValue(t: Target, key: string): Option<Value> {
    ValueAt(t.fields, key)
  }

  predicate Editable(t: Target, key: string) {
    exists f :: f in t.fields && f.key == key && f.writable && f.quality == Complete && f.value.Some?
  }

  function CheckedTarget(p: Patch, targets: seq<Target>): (r: (Option<Target>, Option<Error>))
    ensures r.0.Some? <==> r.1.None?
  {
    var t := Find(targets, p.target);
    if t.None? then (None, Some(Conflict))
    else if exists key :: key in EditedFields(p) && !Editable(t.value, key) then (None, Some(Denied))
    else (t, None)
  }

  const DISPLAY_KEYS := ["mode", "origin", "width", "height", "pixelWidth", "pixelHeight", "main"]

  predicate SameDisplay(old_: Target, now: Target) {
    forall key :: key in DISPLAY_KEYS ==> SettingValue(old_, key) == SettingValue(now, key)
  }

  predicate DisplayStateEqual(before: seq<Target>, current: seq<Target>) {
    && |before| == |current|
    && forall i :: 0 <= i < |before| ==>
                     Find(current, before[i].id).Some? && SameDisplay(before[i], Find(current, before[i].id).value)
  }

  predicate SameSetting(a: Target, b: Target, key: string) {
    SettingValue(a, key).Some? && SettingValue(a, key) == SettingValue(b, key)
  }

  /** `None` when the edit may be applied to what is there now. */
  function CheckChange(p: Patch, before: seq<Target>, current: seq<Target>): Option<Error> {
    var checked := CheckedTarget(p, current);
    if checked.1.Some? then checked.1
    else
      var actual := checked.0.value;
      var original := Find(before, actual.id);
      if original.None? then Some(Conflict)
      else if exists key :: key in EditedFields(p) && !SameSetting(original.value, actual, key) then Some(Conflict)
      else if p.DisplayPatch? && !DisplayStateEqual(before, current) then Some(Conflict)
      else if p.PowerPatch? && SettingValue(original.value, "scheme") != SettingValue(actual, "scheme")
      then Some(Conflict)
      else None
  }

  predicate Reads(t: Target, key: string, v: Value) {
    exists f :: f in t.fields && f.key == key && f.quality == Complete && f.value == Some(v)
  }

  predicate ReadsDisabled(t: Target, key: string) {
    exists f :: f in t.fields && f.key == key && f.quality == Complete
                && f.value.Some? && f.value.value.Proxy? && !f.value.value.endpoint.enabled
  }

  predicate ReadsEndpoint(t: Target, key: string, e: Option<Endpoint>) {
    e.Some? ==> if e.value.enabled then Reads(t, key, Proxy(e.value)) else ReadsDisabled(t, key)
  }

  /** The observation shows every requested value. */
  predicate Satisfied(p: Patch, targets: seq<Target>) {
    var found := Find(targets, p.target);
    found.Some?
    && var t := found.value;
    match p
    case ProxyPatch(_, http, https, socks, bypass) =>
      && ReadsEndpoint(t, "http", http) && ReadsEndpoint(t, "https", https) && ReadsEndpoint(t, "socks", socks)
      && (bypass.Some? ==> Reads(t, "bypass", Items(bypass.value)))
    case DisplayPatch(_, mode, origin) =>
      && (mode.Some? ==> Reads(t, "mode", Text(mode.value)))
      && (origin.Some? ==> Reads(t, "origin", Place(origin.value.0, origin.value.1)))
    case PowerPatch(_, off, sleep, mode) =>
      && (off.Some? ==> Reads(t, "displayOffMinutes", Number(off.value)))
      && (sleep.Some? ==> Reads(t, "sleepMinutes", Number(sleep.value)))
      && (mode.Some? ==> Reads(t, "mode", Text(mode.value)))
  }

  // -------------------------------------------------- the display comparison

  ghost predicate DistinctIds(targets: seq<Target>) {
    forall i, j :: 0 <= i < j < |targets| ==> targets[i].id != targets[j].id
  }

  function Ids(targets: seq<Target>): (s: set<string>)
    ensures forall id :: id in s <==> exists i :: 0 <= i < |targets| && targets[i].id == id
  {
    set i | 0 <= i < |targets| :: targets[i].id
  }

  lemma IdsSplit(targets: seq<Target>)
    requires targets != []
    ensures Ids(targets) == {targets[0].id} + Ids(targets[1..])
  {
    forall id | id in Ids(targets)
      ensures id in {targets[0].id} + Ids(targets[1..])
    {
      var i :| 0 <= i < |targets| && targets[i].id == id;
      assert i > 0 ==> targets[1..][i - 1].id == id;
    }
    forall id | id in Ids(targets[1..])
      ensures id in Ids(targets)
    {
      var i :| 0 <= i < |targets[1..]| && targets[1..][i].id == id;
      assert targets[i + 1].id == id;
    }
  }

  lemma DistinctSplit(targets: seq<Target>)
    requires targets != []
    ensures DistinctIds(targets) <==> DistinctIds(targets[1..]) && targets[0].id !in Ids(targets[1..])
  {
    var rest := targets[1..];
    assert forall j :: 0 < j < |targets| ==> targets[j] == rest[j - 1];
    if DistinctIds(rest) && targets[0].id !in Ids(rest) {
      forall i, j | 0 <= i < j < |targets|
        ensures targets[i].id != targets[j].id
      {
        assert targets[j] == rest[j - 1];
        assert rest[j - 1].id in Ids(rest);
      }
    }
  }

  lemma {:induction false} IdsCount(targets: seq<Target>)
    ensures |Ids(targets)| <= |targets|
    ensures |Ids(targets)| == |targets| <==> DistinctIds(targets)
  {
    if targets == [] {
      assert Ids(targets) == {};
    } else {
      IdsSplit(targets);
      DistinctSplit(targets);
      IdsCount(targets[1..]);
      if targets[0].id in Ids(targets[1..]) {
        assert Ids(targets) == Ids(targets[1..]);
      } else {
        assert |Ids(targets)| == 1 + |Ids(targets[1..])|;
      }
    }
  }

  lemma {:induction false} FindDistinct(targets: seq<Target>, i: nat)
    requires DistinctIds(targets) && i < |targets|
    ensures Find(targets, targets[i].id) == Some(targets[i])
  {
    if i > 0 {
      var rest := targets[1..];
      assert forall j :: 0 <= j < |rest| ==> rest[j] == targets[j + 1];
      FindDistinct(rest, i - 1);
      assert targets[0].id != targets[i].id;
    }
  }

  lemma SubsetSize(a: set<string>, b: set<string>)
    requires a <= b && |b| <= |a|
    ensures a == b
  {
    assert |b - a| == |b| - |a|;
  }

  lemma EqualIds(before: seq<Target>, current: seq<Target>)
    requires DistinctIds(before) && DisplayStateEqual(before, current)
    ensures DistinctIds(current) && Ids(before) == Ids(current)
  {
    forall id | id in Ids(before)
      ensures id in Ids(current)
    {
      var i :| 0 <= i < |before| && before[i].id == id;
      var t := Find(current, id).value;
      var j :| 0 <= j < |current| && current[j] == t;
      assert current[j].id == id;
    }
    IdsCount(before);
    IdsCount(current);
    SubsetSize(Ids(before), Ids(current));
  }

  /** With one target per id, comparing displays does not depend on the side it is asked from. */
  lemma DisplayStateSymmetric(before: seq<Target>, current: seq<Target>)
    requires DistinctIds(before) && DisplayStateEqual(before, current)
    ensures DisplayStateEqual(current, before) && DistinctIds(current)
  {
    EqualIds(before, current);
    forall j | 0 <= j < |current|
      ensures Find(before, current[j].id).Some? && SameDisplay(current[j], Find(before, current[j].id).value)
    {
      assert current[j].id in Ids(before);
      var i :| 0 <= i < |before| && before[i].id == current[j].id;
      FindDistinct(before, i);
      FindDistinct(current, j);
    }
  }

  lemma DisplayStateTransitive(a: seq<Target>, b: seq<Target>, c: seq<Target>)
    requires DisplayStateEqual(a, b) && DisplayStateEqual(b, c)
    ensures DisplayStateEqual(a, c)
  {
    forall i | 0 <= i < |a|
      ensures Find(c, a[i].id).Some? && SameDisplay(a[i], Find(c, a[i].id).value)
    {
      var t := Find(b, a[i].id).value;
      var j :| 0 <= j < |b| && b[j] == t;
      assert Find(c, b[j].id).Some?;
    }
  }

  /** A state equals itself exactly when targets that share an id show the same display. */
  lemma DisplayStateReflexiveExactly(a: seq<Target>)
    ensures DisplayStateEqual(a, a) <==>
            forall i, j :: 0 <= i < |a| && 0 <= j < |a| && a[i].id == a[j].id ==> SameDisplay(a[i], a[j])
  {
    if DisplayStateEqual(a, a) {
      forall i, j | 0 <= i < |a| && 0 <= j < |a| && a[i].id == a[j].id
        ensures SameDisplay(a[i], a[j])
      {
        var t := Find(a, a[i].id).value;
        assert SameDisplay(a[i], t) && SameDisplay(a[j], t);
      }
    } else {
      var i :| 0 <= i < |a| && !(Find(a, a[i].id).Some? && SameDisplay(a[i], Find(a, a[i].id).value));
      assert a[i] in a;
      var t := Find(a, a[i].id).value;
      var j :| 0 <= j < |a| && a[j] == t;
      assert !SameDisplay(a[i], a[j]);
    }
  }

  // ----------------------------------------------------- what an edit depends on

  /** The facts about a target that an edit compares: nothing else about the machine matters to it. */
  predicate AgreeOn(p: Patch, a: seq<Target>, b: seq<Target>) {
    var s, t := Find(a, p.target), Find(b, p.target);
    && s.Some? == t.Some?
    && (s.Some? ==>
          (forall key :: key in EditedFields(p) ==>
                           Editable(s.value, key) == Editable(t.value, key)
                               && SettingValue(s.value, key) == SettingValue(t.value, key))
          && (p.PowerPatch? ==> SettingValue(s.value, "scheme") == SettingValue(t.value, "scheme")))
  }

  /** Renamed targets and changes to other fields or other targets never disturb a proxy or power edit. */
  lemma CheckChangeLocal(p: Patch, before: seq<Target>, a: seq<Target>, b: seq<Target>)
    requires AgreeOn(p, a, b) && (p.DisplayPatch? ==> DisplayStateEqual(before, a) == DisplayStateEqual(before, b))
    ensures CheckChange(p, before, a) == CheckChange(p, before, b)
  {
    var s, t := Find(a, p.target), Find(b, p.target);
    if s.Some? {
      assert CheckedTarget(p, a).1 == CheckedTarget(p, b).1;
      var original := Find(before, p.target);
      if CheckedTarget(p, a).1.None? && original.Some? {
        assert (exists key :: key in EditedFields(p) && !SameSetting(original.value, s.value, key))
            == (exists key :: key in EditedFields(p) && !SameSetting(original.value, t.value, key));
      }
    }
  }

  /** An applied edit is backed by a complete observation of exactly the fields that were edited. */
  lemma SatisfiedEdits(p: Patch, targets: seq<Target>, key: string)
    requires Satisfied(p, targets) && key in EditedFields(p)
    ensures Find(targets, p.target).Some?
    ensures exists f ::
        f in Find(targets, p.target).value.fields && f.key == key && f.quality == Complete
        && f.value.Some?
  {
    var t := Find(targets, p.target).value;
    match p
    case ProxyPatch(_, http, https, socks, bypass) =>
      if key == "http" { assert ReadsEndpoint(t, "http", http); }
      else if key == "https" { assert ReadsEndpoint(t, "https", https); }
      else if key == "socks" { assert ReadsEndpoint(t, "socks", socks); }
      else { assert Reads(t, "bypass", Items(bypass.value)); }
    case DisplayPatch(_, mode, origin) =>
    case PowerPatch(_, off, sleep, mode) =>
  }

  // ------------------------------------------------------- the keep decision

  const MARKERS: nat := 1024

  datatype Decision = Decided | AlreadyOther | Full

  /** The marker of a request is written once; deciding the same again succeeds, deciding otherwise is refused. */
  function Decide(markers: map<string, bool>, request: string, keep: bool): (Decision, map<string, bool>) {
    if request in markers then (if markers[request] == keep then Decided else AlreadyOther, markers)
    else if |markers| >= MARKERS then (Full, markers)
    else (Decided, markers[request := keep])
  }

  function DecideAll(markers: map<string, bool>, calls: seq<(string, bool)>): map<string, bool>
    decreases |calls|
  {
    if calls == [] then markers else DecideAll(Decide(markers, calls[0].0, calls[0].1).1, calls[1..])
  }

  /** Once a decision was accepted it stands, whatever is decided for it or for others afterwards. */
  lemma {:induction false} DecisionStands(markers: map<string, bool>, request: string, keep: bool,
                                          calls: seq<(string, bool)>)
    requires Decide(markers, request, keep).0 == Decided && |markers| <= MARKERS
    ensures var after := DecideAll(Decide(markers, request, keep).1, calls);
            request in after && after[request] == keep && |after| <= MARKERS
    decreases |calls|
  {
    var m := Decide(markers, request, keep).1;
    if calls != [] {
      var next := Decide(m, calls[0].0, calls[0].1).1;
      assert Decide(next, request, keep) == (Decided, next);
      DecisionStands(next, request, keep, calls[1..]);
    }
  }
}
