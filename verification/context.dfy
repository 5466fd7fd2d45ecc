/** The in-memory conversation store: for every user id a window of the most
    recent turns, kept in a `deque(maxlen=CONTEXT_LIMIT)`. */
module Context {

  datatype Role = User | Assistant | System

  /** One `{"role": ..., "content": ...}` entry of a conversation. */
  datatype Turn = Turn(role: Role, content: string)

  /** `CONTEXT_LIMIT`: the capacity of every user's window. */
  const Limit: nat := 10

  /** A bounded deque never holds more than its `maxlen`. */
  type Window = w: seq<Turn> | |w| <= Limit

  /** `user_contexts`: user id to that user's window. */
  type Store = map<string, Window>

  /** Reference definition: the last `n` elements of `s`, or all of `s` when
      it is shorter. */
  function Newest<T>(s: seq<T>, n: nat): (r: seq<T>)
    ensures |r| == if |s| < n then |s| else n
  {
    if |s| <= n then s else s[|s| - n..]
  }

  /** `deque.append` on a full deque first evicts the leftmost (oldest) item. */
  function Push(w: Window, t: Turn): (r: Window)
    ensures |r| == if |w| < Limit then |w| + 1 else Limit
    ensures r[|r| - 1] == t
    ensures r == Newest(w + [t], Limit)
  {
    if |w| == Limit then w[1..] + [t] else w + [t]
  }

  /** `get_context`: a copy of the user's window, empty for an unknown user. */
  function GetContext(store: Store, uid: string): (r: Window)
    ensures uid in store ==> r == store[uid]
    ensures uid !in store ==> r == []
  {
    if uid in store then store[uid] else []
  }

  /** `update_context`: creates the user's window on first use and appends
      the turn to it; no other user's window is touched. */
  function UpdateContext(store: Store, uid: string, role: Role, content: string): (r: Store)
    ensures GetContext(r, uid) == Newest(GetContext(store, uid) + [Turn(role, content)], Limit)
    ensures forall u :: u != uid ==> GetContext(r, u) == GetContext(store, u)
  {
    store[uid := Push(GetContext(store, uid), Turn(role, content))]
  }

  /** `setdefault` adds the user's entry on first use and never removes one. */
  lemma UpdateContextKeys(store: Store, uid: string, role: Role, content: string)
    ensures UpdateContext(store, uid, role, content).Keys == store.Keys + {uid}
  {
  }

  /** Appending turns one at a time, starting from window `w`. */
  function PushAll(w: Window, ts: seq<Turn>): Window
    decreases |ts|
  {
    if ts == [] then w else PushAll(Push(w, ts[0]), ts[1..])
  }

  /** Keeping the newest `n` and then appending and keeping the newest `n`
      again is the same as appending first. */
  lemma NewestOfNewest<T>(a: seq<T>, b: seq<T>, n: nat)
    ensures Newest(Newest(a, n) + b, n) == Newest(a + b, n)
  {
  }

  /** Two appends in a row keep the newest `n` of both turns together. */
  lemma NewestOfTwo<T>(w: seq<T>, a: T, b: T, n: nat)
    ensures Newest(Newest(w + [a], n) + [b], n) == Newest(w + [a, b], n)
  {
  }

  /** The window after two updates in a row for the same user. */
  lemma UpdateTwice(store: Store, uid: string, a: Turn, b: Turn)
    ensures var w := GetContext(UpdateContext(UpdateContext(store, uid, a.role, a.content), uid, b.role, b.content), uid);
      && w == Newest(GetContext(store, uid) + [a, b], Limit)
      && |w| > 0 && w[|w| - 1] == b
  {
  }

  /** Splitting off the first element of `ts` and appending it to `w`. */
  lemma AppendFirst<T>(w: seq<T>, ts: seq<T>)
    requires ts != []
    ensures w + [ts[0]] + ts[1..] == w + ts
  {
  }

  /** However many turns are appended, the window holds exactly the most
      recent `Limit` of them (all of them when fewer), in order. */
  lemma {:induction false} PushAllKeepsNewest(w: Window, ts: seq<Turn>)
    ensures PushAll(w, ts) == Newest(w + ts, Limit)
    decreases |ts|
  {
    if ts == [] {
      assert w + ts == w;
    } else {
      var p := Push(w, ts[0]);
      calc {
        PushAll(w, ts);
        PushAll(p, ts[1..]);
        { PushAllKeepsNewest(p, ts[1..]); }
        Newest(p + ts[1..], Limit);
        { NewestOfNewest(w + [ts[0]], ts[1..], Limit); }
        Newest(w + [ts[0]] + ts[1..], Limit);
        { AppendFirst(w, ts); }
        Newest(w + ts, Limit);
      }
    }
  }

  /** A fresh window that received at least `Limit` turns holds the last
      `Limit` of them. */
  lemma FreshWindowKeepsLastTurns(ts: seq<Turn>)
    requires |ts| >= Limit
    ensures PushAll([], ts) == ts[|ts| - Limit..]
  {
    PushAllKeepsNewest([], ts);
    assert [] + ts == ts;
  }

  /** Repeated `update_context` calls for one user fold `Push` over the turns. */
  function UpdateAll(store: Store, uid: string, ts: seq<Turn>): Store
    decreases |ts|
  {
    if ts == [] then store
    else UpdateAll(UpdateContext(store, uid, ts[0].role, ts[0].content), uid, ts[1..])
  }

  /** After any run of updates for `uid`, every other user's window is as it
      was. */
  lemma {:induction false} UpdateAllFrame(store: Store, uid: string, ts: seq<Turn>, u: string)
    requires u != uid
    ensures GetContext(UpdateAll(store, uid, ts), u) == GetContext(store, u)
    decreases |ts|
  {
    if ts != [] {
      UpdateAllFrame(UpdateContext(store, uid, ts[0].role, ts[0].content), uid, ts[1..], u);
    }
  }

  /** After any run of updates for `uid`, its window is the newest `Limit` of
      its old window followed by the new turns. */
  lemma {:induction false} UpdateAllWindow(store: Store, uid: string, ts: seq<Turn>)
    ensures GetContext(UpdateAll(store, uid, ts), uid) == Newest(GetContext(store, uid) + ts, Limit)
    decreases |ts|
  {
    if ts == [] {
      assert GetContext(store, uid) + ts == GetContext(store, uid);
    } else {
      var s1 := UpdateContext(store, uid, ts[0].role, ts[0].content);
      var w := GetContext(store, uid);
      assert GetContext(s1, uid) == Newest(w + [ts[0]], Limit) by {
        assert Turn(ts[0].role, ts[0].content) == ts[0];
      }
      UpdateAllWindow(s1, uid, ts[1..]);
      calc {
        GetContext(UpdateAll(store, uid, ts), uid);
        GetContext(UpdateAll(s1, uid, ts[1..]), uid);
        Newest(GetContext(s1, uid) + ts[1..], Limit);
        { NewestOfNewest(w + [ts[0]], ts[1..], Limit); }
        Newest(w + [ts[0]] + ts[1..], Limit);
        { AppendFirst(w, ts); }
        Newest(w + ts, Limit);
      }
    }
  }
}
