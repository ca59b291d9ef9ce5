/** The physical-group label allocator of `CommonGeometry._new_physical_group`,
    as a pure function of the list of taken IDs.  The class `CommonGeometry`
    applies it to its own field. */
module PhysicalGroups {
  import opened Errors
  import Decimal

  /** The `label` argument: absent, an integer, or a string name. */
  datatype Label = Default | IntLabel(n: int) | StrLabel(name: string)

  /** The name handed to the engine, and the taken list afterwards. */
  datatype Allocation = Allocation(name: string, taken: seq<int>)

  predicate NoDuplicates(s: seq<int>) {
    forall i, j :: 0 <= i < j < |s| ==> s[i] != s[j]
  }

  /** Python's `max` of a non-empty list. */
  function Max(s: seq<int>): (m: int)
    requires |s| > 0
    ensures m in s
    ensures forall x :: x in s ==> x <= m
  {
    if |s| == 1 then s[0]
    else
      var rest := Max(s[1..]);
      assert forall x :: x in s ==> x == s[0] || x in s[1..];
      if s[0] >= rest then s[0] else rest
  }

  /** `max_id`: the largest taken ID, or 0 when nothing is taken. */
  function MaxId(taken: seq<int>): (m: int)
    ensures taken == [] ==> m == 0
    ensures taken != [] ==> m in taken
    ensures forall x :: x in taken ==> x <= m
  {
    if taken == [] then 0 else Max(taken)
  }

  /** `max_id + 1`, the ID a default or string label reserves; never taken. */
  function NextId(taken: seq<int>): (id: int)
    ensures id !in taken
    ensures forall x :: x in taken ==> x < id
  {
    MaxId(taken) + 1
  }

  /** A string label comes back wrapped in double quotes. */
  function Quoted(name: string): (q: string)
    ensures |q| == |name| + 2
    ensures q[0] == '"' && q[|q| - 1] == '"' && q[1..|q| - 1] == name
  {
    "\"" + name + "\""
  }

  /** One call of `_new_physical_group(label)` on the taken list `taken`: it
      fails only for an integer label already taken, and otherwise appends
      exactly one ID that was not taken. */
  function Allocate(taken: seq<int>, labelArg: Label): (r: Result<Allocation>)
    ensures r.Err? <==> labelArg.IntLabel? && labelArg.n in taken
    ensures r.Err? ==> r.error == LabelTaken(labelArg.n)
    ensures r.Ok? ==>
      |r.value.taken| == |taken| + 1 && r.value.taken[..|taken|] == taken && r.value.taken[|taken|] !in taken
  {
    match labelArg
    case StrLabel(name) => Ok(Allocation(Quoted(name), taken + [NextId(taken)]))
    case IntLabel(n) =>
      if n in taken then Err(LabelTaken(n))
      else Ok(Allocation(Decimal.FromInt(n), taken + [n]))
    case Default =>
      // the default label is the integer `max_id + 1`, checked like any other
      var id := NextId(taken);
      if id in taken then Err(LabelTaken(id))
      else Ok(Allocation(Decimal.FromInt(id), taken + [id]))
  }

  /** A successful allocation keeps a duplicate-free taken list free of
      duplicates. */
  lemma AllocateKeepsNoDuplicates(taken: seq<int>, labelArg: Label)
    requires NoDuplicates(taken)
    ensures Allocate(taken, labelArg).Ok? ==> NoDuplicates(Allocate(taken, labelArg).value.taken)
  {
  }

  /** Without a label the ID is 1 on an empty list, otherwise `max + 1`; it is
      returned as its decimal string and is the one element appended. */
  lemma AllocateDefault(taken: seq<int>)
    ensures var id := if taken == [] then 1 else Max(taken) + 1;
      Allocate(taken, Default) == Ok(Allocation(Decimal.FromInt(id), taken + [id]))
  {
  }

  /** An explicit integer label fails exactly when it is already taken; otherwise
      it is recorded and returned as its decimal string. */
  lemma AllocateExplicit(taken: seq<int>, n: int)
    ensures n in taken ==> Allocate(taken, IntLabel(n)) == Err(LabelTaken(n))
    ensures n !in taken ==> Allocate(taken, IntLabel(n)) == Ok(Allocation(Decimal.FromInt(n), taken + [n]))
  {
  }

  /** A string label never fails: it comes back quoted and reserves `max + 1`
      (1 on an empty list). */
  lemma AllocateString(taken: seq<int>, name: string)
    ensures var id := if taken == [] then 1 else Max(taken) + 1;
      Allocate(taken, StrLabel(name)) == Ok(Allocation(Quoted(name), taken + [id]))
  {
  }

  /** Names of integer labels identify their ID, and never look like the
      quoted name of a string label. */
  lemma NamesAreUnambiguous(taken: seq<int>, labelArg: Label)
    requires Allocate(taken, labelArg).Ok?
    ensures var a := Allocate(taken, labelArg).value;
      labelArg.StrLabel? <==> a.name[0] == '"'
    ensures var a := Allocate(taken, labelArg).value;
      !labelArg.StrLabel? ==> Decimal.IsDecimal(a.name) && Decimal.ParseInt(a.name) == a.taken[|taken|]
  {
    var a := Allocate(taken, labelArg).value;
    if !labelArg.StrLabel? {
      var id := a.taken[|taken|];
      assert a.name == Decimal.FromInt(id);
      Decimal.FromIntRoundTrip(id);
    }
  }

  /** Only IDs are kept unique: a string name is never checked against earlier
      names, so asking for the same name twice succeeds twice with the same
      quoted name (and two different IDs). */
  lemma StringNamesMayRepeat(taken: seq<int>, name: string)
    ensures var first := Allocate(taken, StrLabel(name));
      first.Ok? &&
      var second := Allocate(first.value.taken, StrLabel(name));
      second.Ok? && second.value.name == first.value.name &&
      second.value.taken[|taken| + 1] != first.value.taken[|taken|]
  {
    var t1 := taken + [NextId(taken)];
    assert NextId(taken) in t1;
  }

  /** A session of calls: each call that fails leaves the taken list as it was
      (the assertion fires before the list is touched), each that succeeds
      moves it on.  The old IDs stay, as a prefix, and each call adds at most
      one. */
  function Session(taken: seq<int>, labels: seq<Label>): (t: seq<int>)
    ensures |taken| <= |t| <= |taken| + |labels| && t[..|taken|] == taken
    decreases |labels|
  {
    if labels == [] then taken
    else
      var next := match Allocate(taken, labels[0])
        case Ok(a) => a.taken
        case Err(_) => taken;
      var t := Session(next, labels[1..]);
      assert t[..|taken|] == t[..|next|][..|taken|];
      t
  }

  /** After any sequence of calls, successful or not, the taken list still has
      no duplicates. */
  lemma {:induction false} SessionKeepsNoDuplicates(taken: seq<int>, labels: seq<Label>)
    requires NoDuplicates(taken)
    ensures NoDuplicates(Session(taken, labels))
    decreases |labels|
  {
    if labels != [] {
      AllocateKeepsNoDuplicates(taken, labels[0]);
      var next := match Allocate(taken, labels[0])
        case Ok(a) => a.taken
        case Err(_) => taken;
      SessionKeepsNoDuplicates(next, labels[1..]);
    }
  }
}
