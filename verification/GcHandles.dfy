/** What handles hold and objects point at, told from the list of operations alone: the last
    one that gave the handle or the member its value decides. */
module GcHandles {
  import opened Wrappers
  import opened GcModel

  /** How many objects have been made: the number of the next one. */
  function Made(ops: seq<Op>): nat {
    if ops == [] then 0 else
    Made(ops[..|ops|-1]) + if ops[|ops|-1].Make? || ops[|ops|-1].MakeRooted? then 1 else 0
  }

  /** What handle h was last given, if it exists: by a pointer, by a new object, or by a handle
      moved to it, which then has nothing. */
  function Given(ops: seq<Op>, h: Hid): Option<Option<Oid>>
    decreases |ops|, 0
  {
    if ops == [] then None else
    var front := ops[..|ops|-1];
    match ops[|ops|-1]
    case Construct(g, p) => if g == h then Some(p) else Given(front, h)
    case Assign(g, p) => if g == h then Some(p) else Given(front, h)
    case MakeRooted(_, g) => if g == h then Some(Some(Made(front))) else Given(front, h)
    case MoveConstruct(g, o) => Moved(front, g, o, h)
    case MoveAssign(g, o) => Moved(front, g, o, h)
    case Destroy(g) => if g == h then None else Given(front, h)
    case _ => Given(front, h)
  }

  function Moved(ops: seq<Op>, to: Hid, from: Hid, h: Hid): Option<Option<Oid>>
    decreases |ops|, 1
  {
    if to == from then Given(ops, h) else if h == to then Given(ops, from) else if h == from then Some(None) else Given(ops, h)
  }

  /** What member i of object o was last set to, if there is one. */
  function Wired(ops: seq<Op>, o: Oid, i: nat): Option<Option<Oid>>
    decreases |ops|
  {
    if ops == [] then None else
    var front := ops[..|ops|-1];
    match ops[|ops|-1]
    case Make(members) => if o == Made(front) then MemberOf(members, i) else Wired(front, o, i)
    case MakeRooted(members, _) => if o == Made(front) then MemberOf(members, i) else Wired(front, o, i)
    case SetMember(x, j, p) => if x == o && j == i then Some(p) else Wired(front, o, i)
    case _ => Wired(front, o, i)
  }

  function MemberOf(members: seq<Option<Oid>>, i: nat): Option<Option<Oid>> { if i < |members| then Some(members[i]) else None }

  function Holding(m: Mem, h: Hid): Option<Option<Oid>> { if h in m.handles then Some(m.handles[h]) else None }

  function Pointing(m: Mem, o: Oid, i: nat): Option<Option<Oid>> { if o in m.edges then MemberOf(m.edges[o], i) else None }

  lemma {:induction false} LastStep(m: Mem, ops: seq<Op>, m': Mem) returns (m1: Mem)
    requires RunTo(m, ops, m') && ops != []
    ensures RunTo(m, ops[..|ops|-1], m1) && Enabled(m1, ops[|ops|-1]) && m' == Step(m1, ops[|ops|-1])
    decreases |ops|
  {
    if |ops| == 1 {
      m1 := m;
    } else {
      m1 := LastStep(Step(m, ops[0]), ops[1..], m');
      assert ops[1..][..|ops|-2] == ops[..|ops|-1][1..];
    }
  }

  /** In every run each handle holds what it was last given, each object points where its
      members were last set to, and objects are numbered in the order they are made. */
  lemma {:induction false} HoldsWhatItWasGiven(ops: seq<Op>, m: Mem, h: Hid, o: Oid, i: nat)
    requires RunTo(EMPTY, ops, m)
    ensures m.next == Made(ops) && Holding(m, h) == Given(ops, h) && Pointing(m, o, i) == Wired(ops, o, i)
    decreases |ops|
  {
    if ops != [] {
      var m1 := LastStep(EMPTY, ops, m);
      var front, op := ops[..|ops|-1], ops[|ops|-1];
      HoldsWhatItWasGiven(front, m1, h, o, i);
      if op.MoveConstruct? || op.MoveAssign? { HoldsWhatItWasGiven(front, m1, op.o, o, i); }
    }
  }
}
