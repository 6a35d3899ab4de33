/** The messages reachable from requests: marking over a message graph that may have cycles. */
module ProtoGraph {
  import opened Options

  /** A field's message, if its type is one; a map field contributes the message of its values. */
  datatype Field = Plain(message: Option<string>) | MapOf(mapValue: Option<string>)

  type Graph = map<string, seq<Field>>

  function Target(f: Field): Option<string> {
    if f.MapOf? then f.mapValue else f.message
  }

  /** The descriptors are linked: every message a field refers to is known. */
  predicate Linked(g: Graph) {
    forall m, i :: m in g && 0 <= i < |g[m]| && Target(g[m][i]).Some? ==> Target(g[m][i]).value in g
  }

  predicate Edge(g: Graph, a: string, b: string) {
    a in g && exists i :: 0 <= i < |g[a]| && Target(g[a][i]) == Some(b)
  }

  /** A walk along field edges from a to b. */
  ghost predicate Walk(g: Graph, a: string, b: string, p: seq<string>) {
    |p| > 0 && p[0] == a && p[|p| - 1] == b && forall i :: 0 <= i < |p| - 1 ==> Edge(g, p[i], p[i + 1])
  }

  ghost predicate Reaches(g: Graph, a: string, b: string) {
    exists p :: Walk(g, a, b, p)
  }

  ghost predicate Closed(g: Graph, s: set<string>) {
    forall a, b :: a in s && Edge(g, a, b) ==> b in s
  }

  lemma ReachesSelf(g: Graph, a: string)
    ensures Reaches(g, a, a)
  {
    assert Walk(g, a, a, [a]);
  }

  lemma ReachesAfterEdge(g: Graph, a: string, b: string, c: string)
    requires Edge(g, a, b) && Reaches(g, b, c)
    ensures Reaches(g, a, c)
  {
    var p :| Walk(g, b, c, p);
    var q := [a] + p;
    assert forall i :: 0 <= i < |q| - 1 ==> Edge(g, q[i], q[i + 1]) by {
      forall i | 0 <= i < |q| - 1 ensures Edge(g, q[i], q[i + 1]) {
        if i > 0 { assert q[i] == p[i - 1] && q[i + 1] == p[i]; }
      }
    }
    assert Walk(g, a, c, q);
  }

  /** A closed set keeps every walk that starts in it. */
  lemma {:induction false} ClosedKeepsWalk(g: Graph, s: set<string>, a: string, b: string, p: seq<string>)
    requires Closed(g, s) && a in s && Walk(g, a, b, p)
    ensures b in s
    decreases |p|
  {
    if |p| > 1 {
      assert Edge(g, p[0], p[1]);
      forall i | 0 <= i < |p[1..]| - 1 ensures Edge(g, p[1..][i], p[1..][i + 1]) {
        assert Edge(g, p[i + 1], p[i + 2]);
      }
      ClosedKeepsWalk(g, s, p[1], b, p[1..]);
    }
  }

  /** Exactly the messages that some request reaches. */
  ghost predicate MarksReachable(g: Graph, requests: seq<Option<string>>, marked: set<string>) {
    forall x :: x in marked <==>
    exists i :: 0 <= i < |requests| && requests[i].Some? && Reaches(g, requests[i].value, x)
  }

  class Model {
    const messages: Graph
    var marked: set<string>

    constructor (messages: Graph)
      ensures this.messages == messages && marked == {}
    {
      this.messages, marked := messages, {};
    }

    /** What one call adds: reachable messages only, each with all its successors. */
    twostate predicate Adds(md: Option<string>)
      reads this
    {
      && old(marked) <= marked
      && (md.Some? ==> md.value in marked)
      && (forall x :: x in marked && x !in old(marked) ==> md.Some? && Reaches(messages, md.value, x))
      && (forall x, y :: x in marked && x !in old(marked) && Edge(messages, x, y) ==> y in marked)
    }

    method MarkRequestMessages(md: Option<string>)
      requires Linked(messages) && (md.Some? ==> md.value in messages)
      modifies this
      ensures Adds(md)
      decreases messages.Keys - marked
    {
      if md.None? || md.value in marked {
        return;
      }
      marked := marked + {md.value};
      ReachesSelf(messages, md.value);
      var fields := messages[md.value];
      for i := 0 to |fields|
        invariant old(marked) + {md.value} <= marked
        invariant forall x :: x in marked && x !in old(marked) ==> Reaches(messages, md.value, x)
        invariant forall x, y :: x in marked && x !in old(marked) && x != md.value && Edge(messages, x, y) ==>
                    y in marked
        invariant forall k :: 0 <= k < i && Target(fields[k]).Some? ==> Target(fields[k]).value in marked
      {
        var target := Target(fields[i]);
        label before:
        MarkRequestMessages(target);
        forall x | x in marked && x !in old@before(marked) ensures Reaches(messages, md.value, x) {
          assert Edge(messages, md.value, target.value);
          ReachesAfterEdge(messages, md.value, target.value, x);
        }
      }
    }

    /** The driver: a message is marked exactly when some request reaches it, on any graph. */
    method MarkAll(requests: seq<Option<string>>)
      requires Linked(messages) && marked == {}
      requires forall i :: 0 <= i < |requests| && requests[i].Some? ==> requests[i].value in messages
      modifies this
      ensures MarksReachable(messages, requests, marked)
    {
      for i := 0 to |requests|
        invariant Closed(messages, marked)
        invariant forall x :: x in marked ==>
                    exists j :: 0 <= j < i && requests[j].Some? && Reaches(messages, requests[j].value, x)
        invariant forall j :: 0 <= j < i && requests[j].Some? ==> requests[j].value in marked
      {
        MarkRequestMessages(requests[i]);
      }
      forall x, i | 0 <= i < |requests| && requests[i].Some? && Reaches(messages, requests[i].value, x)
        ensures x in marked
      {
        var p :| Walk(messages, requests[i].value, x, p);
        ClosedKeepsWalk(messages, marked, requests[i].value, x, p);
      }
    }
  }
}
