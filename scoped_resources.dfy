/**
  The native resources the elevation check holds, and the discipline their
  acquisitions and releases must follow: scopes nest, each release closes the
  innermost open scope, and a query runs only while both resources are held.
 */
module ScopedResources {
  import opened Wrappers

  datatype Resource = TokenHandle | Buffer

  /** One step of the elevation check that touches a native resource. */
  datatype Event =
    | Open   // OpenProcessToken yields a token handle
    | Alloc  // AllocHGlobal yields a buffer
    | Query  // GetTokenInformation reads the token into the buffer
    | Free   // FreeHGlobal releases the buffer
    | Close  // CloseHandle releases the token handle

  /**
    Replays `log` from the stack `held` of open resources, innermost last.
    None when a release does not match the innermost open resource or a
    query runs without both resources.
   */
  function Replay(log: seq<Event>, held: seq<Resource>): Option<seq<Resource>>
  {
    if log == [] then Some(held)
    else
      match log[0]
      case Open => Replay(log[1..], held + [TokenHandle])
      case Alloc => Replay(log[1..], held + [Buffer])
      case Query =>
        if TokenHandle in held && Buffer in held then Replay(log[1..], held) else None
      case Free =>
        if held != [] && held[|held| - 1] == Buffer then Replay(log[1..], held[..|held| - 1]) else None
      case Close =>
        if held != [] && held[|held| - 1] == TokenHandle then Replay(log[1..], held[..|held| - 1]) else None
  }

  /** Every scope the log opens is closed, innermost first, and nothing else is closed. */
  predicate WellNested(log: seq<Event>) {
    Replay(log, []) == Some([])
  }

  /**
    Replaying a log keeps the books: what was held plus what the log acquires
    equals what the log releases plus what is still held.
   */
  lemma {:induction false} ReplayBalances(log: seq<Event>, held: seq<Resource>, rest: seq<Resource>)
    requires Replay(log, held) == Some(rest)
    ensures multiset(log)[Open] + multiset(held)[TokenHandle] == multiset(log)[Close] + multiset(rest)[TokenHandle]
    ensures multiset(log)[Alloc] + multiset(held)[Buffer] == multiset(log)[Free] + multiset(rest)[Buffer]
  {
    if log != [] {
      assert log == [log[0]] + log[1..];
      assert multiset(log) == multiset{log[0]} + multiset(log[1..]);
      match log[0]
      case Open => ReplayBalances(log[1..], held + [TokenHandle], rest);
      case Alloc => ReplayBalances(log[1..], held + [Buffer], rest);
      case Query => ReplayBalances(log[1..], held, rest);
      case Free =>
        assert held == held[..|held| - 1] + [Buffer];
        ReplayBalances(log[1..], held[..|held| - 1], rest);
      case Close =>
        assert held == held[..|held| - 1] + [TokenHandle];
        ReplayBalances(log[1..], held[..|held| - 1], rest);
    }
  }

  /** A well-nested log releases every handle and buffer it acquires, once each. */
  lemma WellNestedReleasesAll(log: seq<Event>)
    requires WellNested(log)
    ensures multiset(log)[Open] == multiset(log)[Close]
    ensures multiset(log)[Alloc] == multiset(log)[Free]
  {
    ReplayBalances(log, [], []);
  }

  /**
    The events of an elevation check that opened the token: the buffer scope
    runs only if the buffer was allocated, and each release happens only if
    its zero-guard lets it through.
   */
  function ElevationTrace(bufferAllocated: bool, freeBuffer: bool, closeHandle: bool): seq<Event> {
    [Open] +
    (if bufferAllocated then [Alloc, Query] + (if freeBuffer then [Free] else []) else []) +
    (if closeHandle then [Close] else [])
  }

  /** With both guards passing, the elevation check's scopes nest. */
  lemma ElevationTraceNests(bufferAllocated: bool)
    ensures WellNested(ElevationTrace(bufferAllocated, true, true))
  {
    var h, hb := [TokenHandle], [TokenHandle, Buffer];
    assert [] + [TokenHandle] == h && h + [Buffer] == hb && hb[..1] == h && h[..0] == [];
    assert Replay([Close], h) == Some([]) by { assert [Close][1..] == []; }
    if bufferAllocated {
      var log := [Open, Alloc, Query, Free, Close];
      assert ElevationTrace(bufferAllocated, true, true) == log;
      assert Replay([Free, Close], hb) == Some([]) by { assert [Free, Close][1..] == [Close]; }
      assert Replay([Query, Free, Close], hb) == Some([]) by { assert [Query, Free, Close][1..] == [Free, Close]; }
      assert Replay([Alloc, Query, Free, Close], h) == Some([]) by { assert [Alloc, Query, Free, Close][1..] == [Query, Free, Close]; }
      assert Replay(log, []) == Some([]) by { assert log[1..] == [Alloc, Query, Free, Close]; }
    } else {
      assert ElevationTrace(bufferAllocated, true, true) == [Open, Close];
      assert Replay([Open, Close], []) == Some([]) by { assert [Open, Close][1..] == [Close]; }
    }
  }

  /** The elevation check acquires, queries and releases each resource at most once. */
  lemma ElevationTraceAtMostOnce(bufferAllocated: bool, freeBuffer: bool, closeHandle: bool)
    ensures forall e :: multiset(ElevationTrace(bufferAllocated, freeBuffer, closeHandle))[e] <= 1
  {
  }

  /** With both guards passing, every handle and buffer the check acquires is released. */
  lemma ElevationTraceReleasesAll(bufferAllocated: bool)
    ensures multiset(ElevationTrace(bufferAllocated, true, true))[Open] ==
            multiset(ElevationTrace(bufferAllocated, true, true))[Close] == 1
    ensures multiset(ElevationTrace(bufferAllocated, true, true))[Alloc] ==
            multiset(ElevationTrace(bufferAllocated, true, true))[Free] ==
            (if bufferAllocated then 1 else 0)
  {
    ElevationTraceNests(bufferAllocated);
    WellNestedReleasesAll(ElevationTrace(bufferAllocated, true, true));
  }
}
