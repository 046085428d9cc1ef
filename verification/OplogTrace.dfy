/** What the store sees of a list of oplog entries, path by path. */
module OplogTrace {
  import opened Oplog

  /** An operation as the store sees it; a Put's content is read at flush time. */
  datatype Op = Op(kind: Kind, path: Path, newPath: Path)

  function OpOf(e: Entry): Op { Op(e.kind, e.path, if e.kind == Move then e.newPath else "") }

  /** The operations of `es` that touch `p`. */
  function Touching(es: seq<Entry>, p: Path): seq<Op> {
    if es == [] then []
    else
      var front, last := es[..|es| - 1], es[|es| - 1];
      if Names(last, p) > 0 then Touching(front, p) + [OpOf(last)] else Touching(front, p)
  }

  /** Adjacent Puts merged into one. */
  function Merged(ops: seq<Op>): seq<Op> {
    if ops == [] then [] else Push(Merged(ops[..|ops| - 1]), ops[|ops| - 1])
  }

  function Push(ops: seq<Op>, op: Op): seq<Op> {
    if op.kind == Put && ops != [] && ops[|ops| - 1].kind == Put then ops else ops + [op]
  }

  /** What one entry adds to a path. */
  function Seen(e: Entry, p: Path): seq<Op> { if Names(e, p) > 0 then [OpOf(e)] else [] }

  lemma {:induction false} TouchingConcat(a: seq<Entry>, b: seq<Entry>, p: Path)
    ensures Touching(a + b, p) == Touching(a, p) + Touching(b, p)
  {
    if b == [] {
      assert a + b == a;
    } else {
      assert (a + b)[..|a + b| - 1] == a + b[..|b| - 1];
      TouchingConcat(a, b[..|b| - 1], p);
    }
  }

  lemma TouchingOne(es: seq<Entry>, e: Entry, p: Path)
    ensures Touching(es + [e], p) == Touching(es, p) + Seen(e, p)
  {
    assert (es + [e])[..|es|] == es;
  }

  lemma TouchingWithout(es: seq<Entry>, i: nat, p: Path)
    requires i < |es|
    ensures multiset(Touching(es, p)) == multiset(Seen(es[i], p)) + multiset(Touching(Without(es, i), p))
  {
    assert es == (es[..i] + [es[i]]) + es[i + 1..];
    TouchingConcat(es[..i] + [es[i]], es[i + 1..], p);
    TouchingOne(es[..i], es[i], p);
    TouchingConcat(es[..i], es[i + 1..], p);
  }

  lemma MergedOne(ops: seq<Op>, op: Op)
    ensures Merged(ops + [op]) == Push(Merged(ops), op)
  {
    assert (ops + [op])[..|ops|] == ops;
  }
}
