/** Panic frames as linked objects: construction, recover and destruction relink the head
    of whoever is running, and nobody else's chain notices. */
module PanicRuntime {
  import opened Wrappers

  class PanicFrame {
    var hasPending: bool
    var pending: int
    var recovered: bool
    var prev: PanicFrame?

    /** Links a new frame in front of the running owner's chain. */
    constructor (rt: Runtime, ghost open: seq<PanicFrame>)
      requires Chain(rt.Head(), open)
      modifies rt`globalHead, rt.current
      ensures Chain(rt.Head(), open + [this])
      ensures rt.Head() == this && prev == old(rt.Head()) && !hasPending && !recovered && rt.current == old(rt.current)
      ensures rt.current != null ==> rt.globalHead == old(rt.globalHead)
    {
      hasPending, pending, recovered := false, 0, false;
      prev := rt.Head();
      new;
      assert Chain(prev, open);
      rt.SetHead(this);
      ChainPushed(this, open);
    }

    /** The panic statement of the function that owns the frame. */
    method Raise(m: int)
      modifies this`hasPending, this`pending
      ensures hasPending && pending == m
    {
      hasPending, pending := true, m;
    }

    /** The destructor: unlinks, and answers the panic that goes on, if there is one. */
    method Destroy(rt: Runtime, ghost open: seq<PanicFrame>) returns (gone: Option<int>)
      requires Chain(rt.Head(), open + [this])
      modifies rt`globalHead, rt.current
      ensures Chain(rt.Head(), open)
      ensures rt.Head() == prev && rt.current == old(rt.current)
      ensures rt.current != null ==> rt.globalHead == old(rt.globalHead)
      ensures gone == if hasPending && !recovered then Some(pending) else None
    {
      assert (open + [this])[..|open|] == open;
      rt.SetHead(prev);
      gone := if hasPending && !recovered then Some(pending) else None;
    }
  }

  class VThread {
    var panicHead: PanicFrame?

    constructor ()
      ensures panicHead == null
    {
      panicHead := null;
    }
  }

  /** Following prev from h visits exactly the frames of open, the last one first. */
  ghost predicate Chain(h: PanicFrame?, open: seq<PanicFrame>)
    reads open
    decreases |open|
  {
    if open == [] then h == null else h == open[|open|-1] && Chain(open[|open|-1].prev, open[..|open|-1])
  }

  lemma ChainPushed(f: PanicFrame, open: seq<PanicFrame>)
    requires Chain(f.prev, open)
    ensures Chain(f, open + [f])
  {
    assert (open + [f])[..|open|] == open;
  }

  class Runtime {
    var current: VThread?
    var globalHead: PanicFrame?
    var saved: seq<VThread?>

    constructor ()
      ensures current == null && globalHead == null && saved == []
    {
      current, globalHead, saved := null, null, [];
    }

    /** current_panic_head(). */
    function Head(): PanicFrame?
      reads this, current
    {
      if current != null then current.panicHead else globalHead
    }

    method SetHead(f: PanicFrame?)
      modifies `globalHead, current
      ensures Head() == f && current == old(current)
      ensures current != null ==> globalHead == old(globalHead)
    {
      if current != null { current.panicHead := f; } else { globalHead := f; }
    }

    /** recover(). */
    method Recover() returns (r: Option<int>)
      modifies Head()
      ensures Head() == old(Head())
      ensures r == old(if Head() == null || !Head().hasPending then None else Some(Head().pending))
      ensures Head() != null ==> Head().prev == old(if Head() == null then null else Head().prev) && !Head().hasPending
      ensures Head() != null ==> Head().recovered == (r.Some? || old(Head() != null && Head().recovered))
    {
      var f := Head();
      if f == null || !f.hasPending { return None; }
      f.recovered := true;
      r := Some(f.pending);
      f.hasPending := false;
    }

    /** Around a resume in run and RunUntil. */
    method BeginResume(vt: VThread?)
      modifies this
      ensures current == vt && saved == old(saved) + [old(current)] && globalHead == old(globalHead)
    {
      saved := saved + [current];
      current := vt;
    }

    /** Gives the thread back to the VThread that resumed this one. */
    method EndResume()
      requires saved != []
      modifies this
      ensures current == old(saved)[|old(saved)| - 1] && saved == old(saved)[..|old(saved)| - 1] && globalHead == old(globalHead)
    {
      current := saved[|saved| - 1];
      saved := saved[..|saved| - 1];
    }
  }
}
