/** Which resources a stretch of the journal opens and closes.

    A resource is opened by a successful getConnection, prepareStatement or
    executeQuery, and every close attempt on it counts as closing it, whether
    or not the close itself throws. A stretch of journal closes its resources
    properly when its close attempts are exactly its opened resources in
    reverse order: each opened resource closed once, the last opened first. */
module Lifecycle {
  import opened Jdbc

  predicate Opens(e: Event)
  {
    e.ok && (e.call.GetConnection? || e.call.PrepareStatement? || e.call.ExecuteQuery?)
  }

  predicate Closes(e: Event)
  {
    e.call.Close?
  }

  /** The resources opened, in the order they were opened. */
  function Opened(t: seq<Event>): seq<Res>
  {
    if t == [] then [] else (if Opens(t[0]) then [t[0].on] else []) + Opened(t[1..])
  }

  /** The resources a close was attempted on, in the order of the attempts. */
  function Closed(t: seq<Event>): seq<Res>
  {
    if t == [] then [] else (if Closes(t[0]) then [t[0].on] else []) + Closed(t[1..])
  }

  function Reverse<T>(s: seq<T>): seq<T>
  {
    if s == [] then [] else Reverse(s[1..]) + [s[0]]
  }

  predicate ProperlyClosed(t: seq<Event>)
  {
    Closed(t) == Reverse(Opened(t))
  }

  /** A stretch that neither opens nor closes anything. */
  predicate Quiet(t: seq<Event>)
  {
    forall i | 0 <= i < |t| :: !Opens(t[i]) && !Closes(t[i])
  }

  /** How many calls of exactly this shape the stretch holds. */
  function Count(t: seq<Event>, call: Call): nat
  {
    if t == [] then 0 else (if t[0].call == call then 1 else 0) + Count(t[1..], call)
  }

  lemma {:induction false} Append(a: seq<Event>, b: seq<Event>)
    ensures Opened(a + b) == Opened(a) + Opened(b)
    ensures Closed(a + b) == Closed(a) + Closed(b)
  {
    OpenedAppend(a, b);
    ClosedAppend(a, b);
  }

  lemma {:induction false} OpenedAppend(a: seq<Event>, b: seq<Event>)
    ensures Opened(a + b) == Opened(a) + Opened(b)
  {
    if a == [] {
      assert a + b == b;
    } else {
      assert (a + b)[0] == a[0];
      var head := if Opens(a[0]) then [a[0].on] else [];
      assert (a + b)[1..] == a[1..] + b;
      assert Opened(a + b) == head + Opened(a[1..] + b);
      OpenedAppend(a[1..], b);
      assert Opened(a) == head + Opened(a[1..]);
    }
  }

  lemma {:induction false} ClosedAppend(a: seq<Event>, b: seq<Event>)
    ensures Closed(a + b) == Closed(a) + Closed(b)
  {
    if a == [] {
      assert a + b == b;
    } else {
      assert (a + b)[0] == a[0];
      var head := if Closes(a[0]) then [a[0].on] else [];
      assert (a + b)[1..] == a[1..] + b;
      assert Closed(a + b) == head + Closed(a[1..] + b);
      ClosedAppend(a[1..], b);
      assert Closed(a) == head + Closed(a[1..]);
    }
  }

  lemma One(e: Event)
    ensures Opened([e]) == (if Opens(e) then [e.on] else [])
    ensures Closed([e]) == (if Closes(e) then [e.on] else [])
    ensures forall call :: Count([e], call) == (if e.call == call then 1 else 0)
  {
    assert [e][1..] == [];
  }

  lemma {:induction false} CountAppend(a: seq<Event>, b: seq<Event>, call: Call)
    ensures Count(a + b, call) == Count(a, call) + Count(b, call)
  {
    if a == [] {
      assert a + b == b;
    } else {
      assert (a + b)[1..] == a[1..] + b;
      CountAppend(a[1..], b, call);
    }
  }

  lemma {:induction false} QuietInert(t: seq<Event>)
    requires Quiet(t)
    ensures Opened(t) == [] && Closed(t) == []
  {
    if t != [] {
      assert Quiet(t[1..]) by {
        forall i | 0 <= i < |t[1..]| ensures !Opens(t[1..][i]) && !Closes(t[1..][i]) {
          assert t[1..][i] == t[i + 1];
        }
      }
      QuietInert(t[1..]);
    }
  }

  lemma {:induction false} QuietAppend(a: seq<Event>, b: seq<Event>)
    requires Quiet(a) && Quiet(b)
    ensures Quiet(a + b)
  {
    forall i | 0 <= i < |a + b| ensures !Opens((a + b)[i]) && !Closes((a + b)[i]) {
      if i < |a| {
        assert (a + b)[i] == a[i];
      } else {
        assert (a + b)[i] == b[i - |a|];
      }
    }
  }

  lemma ReverseOne<T>(a: T)
    ensures Reverse([a]) == [a]
  {
    assert [a][1..] == [];
  }

  lemma ReverseTwo<T>(a: T, b: T)
    ensures Reverse([a, b]) == [b, a]
  {
    assert [a, b][1..] == [b];
    ReverseOne(b);
  }

  lemma ReverseThree<T>(a: T, b: T, c: T)
    ensures Reverse([a, b, c]) == [c, b, a]
  {
    assert [a, b, c][1..] == [b, c];
    ReverseTwo(b, c);
  }

  /** Appending two closes after a quiet stretch. */
  lemma CloseTailShape(acquired: seq<Event>, middle: seq<Event>, tail: seq<Event>)
    requires Quiet(middle)
    requires |tail| == 2 && Closes(tail[0]) && Closes(tail[1])
    ensures Opened(acquired + middle + tail) == Opened(acquired)
    ensures Closed(acquired + middle + tail) == Closed(acquired) + [tail[0].on, tail[1].on]
  {
    QuietInert(middle);
    assert tail == [tail[0]] + [tail[1]];
    One(tail[0]);
    One(tail[1]);
    Append([tail[0]], [tail[1]]);
    Append(acquired, middle);
    Append(acquired + middle, tail);
  }

  /** Appending a quiet stretch and then three closes. */
  lemma ThreeCloses(prefix: seq<Event>, middle: seq<Event>, tail: seq<Event>)
    requires Quiet(middle)
    requires |tail| == 3 && Closes(tail[0]) && Closes(tail[1]) && Closes(tail[2])
    ensures Opened(prefix + middle + tail) == Opened(prefix)
    ensures Closed(prefix + middle + tail) == Closed(prefix) + [tail[0].on, tail[1].on, tail[2].on]
  {
    QuietInert(middle);
    assert tail == [tail[0]] + [tail[1], tail[2]];
    One(tail[0]);
    CloseTailShape([], [], [tail[1], tail[2]]);
    assert [] + [] + [tail[1], tail[2]] == [tail[1], tail[2]];
    Append([tail[0]], [tail[1], tail[2]]);
    Append(prefix, middle);
    Append(prefix + middle, tail);
  }

  /** Opening one resource, a quiet stretch, then closing that resource
      closes properly. */
  lemma OpenQuietClose(got: Event, middle: seq<Event>, closing: Event)
    requires Opens(got) && Quiet(middle) && Closes(closing) && closing.on == got.on
    ensures ProperlyClosed([got] + middle + [closing])
  {
    QuietInert(middle);
    One(got);
    One(closing);
    Append([got], middle);
    Append([got] + middle, [closing]);
    ReverseOne(got.on);
  }

  /** Properly closing means each resource is closed as often as it was
      opened, so once when it was opened once. */
  lemma {:induction false} ReverseSameElements<T>(s: seq<T>)
    ensures |Reverse(s)| == |s|
    ensures multiset(Reverse(s)) == multiset(s)
  {
    if s != [] {
      ReverseSameElements(s[1..]);
      assert s == [s[0]] + s[1..];
    }
  }

  lemma ProperlyClosedOnce(t: seq<Event>, r: Res)
    requires ProperlyClosed(t)
    ensures multiset(Closed(t))[r] == multiset(Opened(t))[r]
  {
    ReverseSameElements(Opened(t));
  }
}
