/** The peer provider: which peer cache-servers are engaged and whose contexts
    are still open, for calls that come one after the other. */
module Provider {
  import opened Wrappers

  type PeerName = string
  type Url = string

  /** Identity of a context made with context.WithCancel. */
  type Ctx = nat

  datatype PeerEntry = PeerEntry(url: Url, ctx: Ctx)

  /** `open` are the created contexts that were not cancelled. */
  datatype State = State(peers: map<PeerName, PeerEntry>, open: set<Ctx>)

  /** What the handlers are given. `ok` says whether, should the call get that
      far, building the peer and engaging it succeeds. */
  datatype Event =
    | Upsert(name: PeerName, url: Url, ok: bool)
    | Gone(name: PeerName)

  /** A Cache object that names a peer other than the agent's own source. */
  predicate Eligible(sourceUrl: Url, name: PeerName, url: Url) {
    url != "" && url != sourceUrl && name != ""
  }

  function Handle(sourceUrl: Url, s: State, e: Event, ctx: Ctx): State {
    match e
    case Upsert(name, url, ok) =>
      if Eligible(sourceUrl, name, url) && name !in s.peers && ok
      then State(s.peers[name := PeerEntry(url, ctx)], s.open + {ctx})
      else s
    case Gone(name) =>
      if name != "" && name in s.peers
      then State(s.peers - {name}, s.open - {s.peers[name].ctx})
      else s
  }

  ghost predicate HasContext(s: State, ctx: Ctx) {
    exists name :: name in s.peers && s.peers[name].ctx == ctx
  }

  /** The open contexts are those of the peers, one each, all below `next`. */
  ghost predicate Balanced(s: State, next: Ctx) {
    && (forall name :: name in s.peers ==> s.peers[name].ctx in s.open)
    && (forall ctx :: ctx in s.open ==> ctx < next && HasContext(s, ctx))
    && (forall n1, n2 :: n1 in s.peers && n2 in s.peers && s.peers[n1].ctx == s.peers[n2].ctx ==> n1 == n2)
  }

  lemma HandleKeepsBalance(sourceUrl: Url, s: State, e: Event, ctx: Ctx)
    requires Balanced(s, ctx)
    ensures Balanced(Handle(sourceUrl, s, e, ctx), ctx + 1)
  {
    var s' := Handle(sourceUrl, s, e, ctx);
    forall c | c in s'.open ensures HasContext(s', c) {
      if c in s.open {
        var name :| name in s.peers && s.peers[name].ctx == c;
        assert name in s'.peers && s'.peers[name].ctx == c;
      } else {
        assert e.name in s'.peers && s'.peers[e.name].ctx == c;
      }
    }
  }

  // -------------------------------------------------------------- the provider

  /** Where a call to engage a peer fails, if it does. */
  datatype Failure = NoFailure | BuildFails | EngageFails

  class Provider {
    const sourceUrl: Url
    var peers: map<PeerName, PeerEntry>
    var open: set<Ctx>
    var nextCtx: Ctx

    function Current(): State reads this { State(peers, open) }

    ghost predicate Valid() reads this { Balanced(Current(), nextCtx) }

    constructor (sourceUrl: Url)
      ensures Valid() && this.sourceUrl == sourceUrl && Current() == State(map[], {})
    {
      this.sourceUrl := sourceUrl;
      peers, open, nextCtx := map[], {}, 0;
    }

    method EngageCacheObject(name: PeerName, url: Url, failure: Failure) returns (failed: bool)
      requires Valid()
      modifies this
      ensures Valid()
      ensures Current() == Handle(sourceUrl, old(Current()), Upsert(name, url, failure == NoFailure), old(nextCtx))
      ensures var gets := url != "" && url != sourceUrl && name != "" && name !in old(peers);
        && (failed <==> gets && failure != NoFailure)
        && peers == (if gets && !failed then old(peers)[name := PeerEntry(url, old(nextCtx))] else old(peers))
        && open == (if gets && !failed then old(open) + {old(nextCtx)} else old(open))
    {
      if url == "" || url == sourceUrl {
        return false;
      }
      if name == "" {
        return false;
      }
      if name in peers {
        return false;
      }
      if failure == BuildFails {
        return true;
      }
      var ctx := nextCtx;
      open, nextCtx := open + {ctx}, nextCtx + 1;
      peers := peers[name := PeerEntry(url, ctx)];
      if failure == EngageFails {
        // cancel the context, take the entry out again
        open := open - {ctx};
        peers := peers - {name};
        assert peers == old(peers) && open == old(open);
        return true;
      }
      HandleKeepsBalance(sourceUrl, old(Current()), Upsert(name, url, true), ctx);
      return false;
    }

    method DisengageCacheObject(name: PeerName)
      requires Valid()
      modifies this
      ensures Valid()
      ensures Current() == Handle(sourceUrl, old(Current()), Gone(name), old(nextCtx))
      ensures peers == if name == "" then old(peers) else old(peers) - {name}
      ensures open == if name != "" && name in old(peers) then old(open) - {old(peers)[name].ctx} else old(open)
    {
      if name == "" {
        return;
      }
      if name in peers {
        HandleKeepsBalance(sourceUrl, Current(), Gone(name), nextCtx);
        open := open - {peers[name].ctx};
        peers := peers - {name};
      }
    }

    method Get(name: PeerName) returns (entry: Option<PeerEntry>)
      ensures entry == Lookup(peers, name)
    {
      if name in peers {
        return Some(peers[name]);
      }
      return None;
    }
  }

  // ------------------------------------------------------------------- history

  /** The i-th event is handled with context number `next + i`. */
  function History(sourceUrl: Url, s: State, events: seq<Event>, next: Ctx): State
    decreases |events|
  {
    if events == [] then s
    else
      var last := |events| - 1;
      Handle(sourceUrl, History(sourceUrl, s, events[..last], next), events[last], next + last)
  }

  /** An event that can put `name` in. */
  predicate Enters(sourceUrl: Url, e: Event, name: PeerName) {
    e.Upsert? && e.name == name && e.ok && name != "" && e.url != "" && e.url != sourceUrl
  }

  /** The i-th event is the first one after the last delete of `name`, if there
      was one, that can put `name` in. */
  predicate EnteredAt(sourceUrl: Url, events: seq<Event>, name: PeerName, i: int) {
    && 0 <= i < |events| && Enters(sourceUrl, events[i], name)
    && (forall j :: i < j < |events| ==> events[j] != Gone(name))
    && (forall j :: 0 <= j < i && Enters(sourceUrl, events[j], name) ==>
          exists k :: j < k < i && events[k] == Gone(name))
  }

  function FromEmpty(sourceUrl: Url, events: seq<Event>, next: Ctx): map<PeerName, PeerEntry> {
    History(sourceUrl, State(map[], {}), events, next).peers
  }

  lemma EnteredBefore(sourceUrl: Url, events: seq<Event>, name: PeerName, i: int)
    requires events != [] && 0 <= i < |events| - 1
    ensures EnteredAt(sourceUrl, events, name, i) <==>
            EnteredAt(sourceUrl, events[..|events| - 1], name, i) && events[|events| - 1] != Gone(name)
  {
    var before := events[..|events| - 1];
    assert forall j :: 0 <= j < |before| ==> before[j] == events[j];
  }

  /** Below an entering event with no delete after it there is a first one. */
  lemma {:induction false} FirstEntry(sourceUrl: Url, events: seq<Event>, name: PeerName, j: nat)
    requires j < |events| && Enters(sourceUrl, events[j], name)
    requires forall k :: j < k < |events| ==> events[k] != Gone(name)
    ensures exists i :: EnteredAt(sourceUrl, events, name, i)
    decreases j
  {
    if !EnteredAt(sourceUrl, events, name, j) {
      var i :| 0 <= i < j && Enters(sourceUrl, events[i], name) && !exists k :: i < k < j && events[k] == Gone(name);
      assert events[j] != Gone(name);
      assert forall k :: i < k < |events| ==> events[k] != Gone(name);
      FirstEntry(sourceUrl, events, name, i);
    }
  }

  /** The last event enters a name exactly when it can and nothing before has. */
  lemma LastEnters(sourceUrl: Url, events: seq<Event>, name: PeerName)
    requires events != []
    ensures var last := |events| - 1;
      EnteredAt(sourceUrl, events, name, last) <==>
        Enters(sourceUrl, events[last], name) && !exists i :: EnteredAt(sourceUrl, events[..last], name, i)
  {
    var last := |events| - 1;
    var before := events[..last];
    if EnteredAt(sourceUrl, events, name, last) {
      forall i ensures !EnteredAt(sourceUrl, before, name, i) {
        if EnteredAt(sourceUrl, before, name, i) {
          assert false;
        }
      }
    } else if Enters(sourceUrl, events[last], name) {
      var j :| 0 <= j < last && Enters(sourceUrl, events[j], name) &&
               !exists k :: j < k < last && events[k] == Gone(name);
      assert before[j] == events[j];
      assert forall k :: j < k < last ==> before[k] == events[k];
      FirstEntry(sourceUrl, before, name, j);
    }
  }

  lemma {:induction false} EnteredIsPeer(sourceUrl: Url, events: seq<Event>, next: Ctx, name: PeerName, i: int)
    requires EnteredAt(sourceUrl, events, name, i)
    ensures name in FromEmpty(sourceUrl, events, next)
    ensures FromEmpty(sourceUrl, events, next)[name] == PeerEntry(events[i].url, next + i)
    decreases |events|
  {
    var last := |events| - 1;
    if i < last {
      EnteredBefore(sourceUrl, events, name, i);
      EnteredIsPeer(sourceUrl, events[..last], next, name, i);
    } else if name in FromEmpty(sourceUrl, events[..last], next) {
      var j := PeerHasEntered(sourceUrl, events[..last], next, name);
      LastEnters(sourceUrl, events, name);
    }
  }

  lemma {:induction false} PeerHasEntered(sourceUrl: Url, events: seq<Event>, next: Ctx, name: PeerName)
    returns (i: int)
    requires name in FromEmpty(sourceUrl, events, next)
    ensures EnteredAt(sourceUrl, events, name, i)
    decreases |events|
  {
    var last := |events| - 1;
    if name in FromEmpty(sourceUrl, events[..last], next) {
      i := PeerHasEntered(sourceUrl, events[..last], next, name);
      EnteredBefore(sourceUrl, events, name, i);
    } else {
      i := last;
      forall j ensures !EnteredAt(sourceUrl, events[..last], name, j) {
        if EnteredAt(sourceUrl, events[..last], name, j) {
          EnteredIsPeer(sourceUrl, events[..last], next, name, j);
        }
      }
      LastEnters(sourceUrl, events, name);
    }
  }

  /** From an empty start: a name is a peer exactly when some event entered it
      since its last delete, and then it has the URL and the context of the first
      such event. */
  lemma HistoryDecides(sourceUrl: Url, events: seq<Event>, next: Ctx, name: PeerName)
    ensures var peers := FromEmpty(sourceUrl, events, next);
      && (name in peers <==> exists i :: EnteredAt(sourceUrl, events, name, i))
      && (forall i :: EnteredAt(sourceUrl, events, name, i) ==>
            name in peers && peers[name] == PeerEntry(events[i].url, next + i))
  {
    if name in FromEmpty(sourceUrl, events, next) {
      var i := PeerHasEntered(sourceUrl, events, next, name);
    }
    forall i | EnteredAt(sourceUrl, events, name, i)
      ensures name in FromEmpty(sourceUrl, events, next)
      ensures FromEmpty(sourceUrl, events, next)[name] == PeerEntry(events[i].url, next + i)
    {
      EnteredIsPeer(sourceUrl, events, next, name, i);
    }
  }

  /** No peer is ever the agent's own source, and none has an empty URL or name. */
  lemma PeersAreEligible(sourceUrl: Url, events: seq<Event>, next: Ctx, name: PeerName)
    requires name in FromEmpty(sourceUrl, events, next)
    ensures var url := FromEmpty(sourceUrl, events, next)[name].url;
      url != "" && url != sourceUrl && name != ""
  {
    HistoryDecides(sourceUrl, events, next, name);
    var i :| EnteredAt(sourceUrl, events, name, i);
  }

  /** And whatever is none of these gets in unless it is there already or fails; an
      event for anything else, or a failing one, leaves the state alone. */
  lemma EligibleGetsIn(sourceUrl: Url, events: seq<Event>, next: Ctx, name: PeerName, url: Url, ok: bool)
    ensures var before := History(sourceUrl, State(map[], {}), events, next);
      var after := History(sourceUrl, State(map[], {}), events + [Upsert(name, url, ok)], next);
      if url != "" && url != sourceUrl && name != "" && name !in before.peers && ok
      then after == State(before.peers[name := PeerEntry(url, next + |events|)], before.open + {next + |events|})
      else after == before
  {
    var event := Upsert(name, url, ok);
    assert (events + [event])[..|events|] == events;
  }

  /** Contexts are conserved: after any sequence of events the open contexts are
      exactly those of the current peers. */
  lemma {:induction false} OpenAreThePeers(sourceUrl: Url, events: seq<Event>, next: Ctx)
    ensures Balanced(History(sourceUrl, State(map[], {}), events, next), next + |events|)
    decreases |events|
  {
    if events != [] {
      var last := |events| - 1;
      OpenAreThePeers(sourceUrl, events[..last], next);
      var before := History(sourceUrl, State(map[], {}), events[..last], next);
      HandleKeepsBalance(sourceUrl, before, events[last], next + last);
    }
  }
}
