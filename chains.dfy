/** The chain selector bar: a capped list of chain links, a link to the
    all-chains page, a render throttle and de-duplicated subscription clicks.

    Time (`performance.now()`) is an explicit integer `now` in milliseconds,
    and the connection is a log of the chains it was asked to subscribe to. */
module Chains {
  import opened Common

  type Hash = string

  /** How many chains are put on screen. */
  const VISIBLE_CAP: nat := 16
  /** Minimum time, in milliseconds, between two renders with the same selection. */
  const RENDER_THROTTLE: int := 1000

  const CHAIN_CLASS := "Chains-chain"
  const SELECTED_CLASS := "Chains-chain Chains-chain-selected"
  const ALL_CHAINS := "#all-chains"
  const ALL_CHAINS_PREFIX := "#all-chains/"

  /** A chain as listed; `name` is the source's `label` (a Dafny keyword). */
  datatype ChainData = ChainData(name: string, genesisHash: Hash, nodeCount: nat)

  datatype ChainsProps = ChainsProps(chains: seq<ChainData>, subscribed: Option<Hash>)

  // ---------------------------------------------------------------------
  // Pure parts of render
  // ---------------------------------------------------------------------

  /** `chains.slice(0, VISIBLE_CAP)`: the first chains, in their order. */
  function Visible(chains: seq<ChainData>): (r: seq<ChainData>)
    ensures |r| == Min(VISIBLE_CAP, |chains|)
    ensures forall i :: 0 <= i < |r| ==> r[i] == chains[i]
  {
    if |chains| <= VISIBLE_CAP then chains else chains[..VISIBLE_CAP]
  }

  /** JavaScript truthiness of the selected hash: `null` and `""` are false. */
  predicate Truthy(subscribed: Option<Hash>)
  {
    subscribed.Some? && subscribed.value != ""
  }

  function AllChainsHref(subscribed: Option<Hash>): (href: string)
    ensures Truthy(subscribed) ==> href == ALL_CHAINS_PREFIX + subscribed.value
    ensures !Truthy(subscribed) ==> href == ALL_CHAINS
  {
    if Truthy(subscribed) then ALL_CHAINS_PREFIX + subscribed.value else ALL_CHAINS
  }

  /** Reads the selected chain back out of an all-chains link. */
  function HrefChain(href: string): (r: Option<Hash>)
  {
    if |href| > |ALL_CHAINS_PREFIX| && href[..|ALL_CHAINS_PREFIX|] == ALL_CHAINS_PREFIX
    then Some(href[|ALL_CHAINS_PREFIX|..])
    else None
  }

  /** The link names the selected chain exactly when that chain is truthy,
      so the link is `#all-chains` iff the selection is not truthy. */
  lemma HrefRoundTrip(subscribed: Option<Hash>)
    ensures HrefChain(AllChainsHref(subscribed)) == if Truthy(subscribed) then subscribed else None
  {
    var href := AllChainsHref(subscribed);
    if Truthy(subscribed) {
      assert href[..|ALL_CHAINS_PREFIX|] == ALL_CHAINS_PREFIX;
      assert href[|ALL_CHAINS_PREFIX|..] == subscribed.value;
    } else {
      assert |href| == 11;
    }
  }

  /** The link therefore tells two truthy selections apart. */
  lemma HrefInjective(a: Option<Hash>, b: Option<Hash>)
    requires Truthy(a) && Truthy(b) && a != b
    ensures AllChainsHref(a) != AllChainsHref(b)
  {
    HrefRoundTrip(a);
    HrefRoundTrip(b);
  }

  /** The class of one chain link (`renderChain`). */
  function ChainClass(genesisHash: Hash, subscribed: Option<Hash>): (className: string)
    ensures className == SELECTED_CLASS <==> subscribed == Some(genesisHash)
    ensures className == CHAIN_CLASS <==> subscribed != Some(genesisHash)
  {
    var className := CHAIN_CLASS;
    if subscribed == Some(genesisHash) then className + " Chains-chain-selected" else className
  }

  datatype ChainEntry = ChainEntry(key: Hash, className: string, name: string, nodeCount: nat)

  /** What the chains bar shows: one entry per visible chain, the all-chains
      link, and whether the settings sidebar is open. */
  datatype ChainsRender = ChainsRender(entries: seq<ChainEntry>, allChainsHref: string, settingsOpen: bool)

  /** One chain link (`renderChain`): keyed by the genesis hash, showing the
      label and node count, selected iff it is the subscribed chain. */
  function Entry(chain: ChainData, subscribed: Option<Hash>): (e: ChainEntry)
    ensures e.key == chain.genesisHash && e.name == chain.name && e.nodeCount == chain.nodeCount
    ensures e.className == SELECTED_CLASS <==> subscribed == Some(chain.genesisHash)
    ensures e.className == CHAIN_CLASS <==> subscribed != Some(chain.genesisHash)
  {
    ChainEntry(chain.genesisHash, ChainClass(chain.genesisHash, subscribed), chain.name, chain.nodeCount)
  }

  function View(props: ChainsProps, display: bool): (v: ChainsRender)
    ensures |v.entries| == Min(VISIBLE_CAP, |props.chains|)
    ensures forall i :: 0 <= i < |v.entries| ==>
      v.entries[i] == Entry(props.chains[i], props.subscribed)
    ensures v.allChainsHref == AllChainsHref(props.subscribed)
    ensures v.settingsOpen == display
  {
    var visible := Visible(props.chains);
    ChainsRender(seq(|visible|, i requires 0 <= i < |visible| => Entry(visible[i], props.subscribed)),
                 AllChainsHref(props.subscribed), display)
  }

  predicate DistinctHashes(chains: seq<ChainData>)
  {
    forall i, j :: 0 <= i < j < |chains| ==> chains[i].genesisHash != chains[j].genesisHash
  }

  /** With distinct genesis hashes, at most one link is marked selected, and
      a selected chain among the visible ones is marked. */
  lemma SelectedEntry(props: ChainsProps, display: bool, i: nat)
    requires DistinctHashes(props.chains)
    requires i < Min(VISIBLE_CAP, |props.chains|)
    ensures View(props, display).entries[i].className == SELECTED_CLASS
            <==> props.subscribed == Some(props.chains[i].genesisHash)
    ensures View(props, display).entries[i].className == SELECTED_CLASS ==>
      forall j :: 0 <= j < Min(VISIBLE_CAP, |props.chains|) && j != i ==>
        View(props, display).entries[j].className == CHAIN_CLASS
  {
    var v := View(props, display);
    if v.entries[i].className == SELECTED_CLASS {
      forall j | 0 <= j < Min(VISIBLE_CAP, |props.chains|) && j != i
        ensures v.entries[j].className == CHAIN_CLASS
      {
        if j < i {
          assert props.chains[j].genesisHash != props.chains[i].genesisHash;
        } else {
          assert props.chains[i].genesisHash != props.chains[j].genesisHash;
        }
      }
    }
  }

  // ---------------------------------------------------------------------
  // The throttle gate and the click de-duplication, as a state machine
  // ---------------------------------------------------------------------

  /** The component's private bookkeeping: the last received `subscribed`
      prop, the time of the last render and the last clicked chain. */
  datatype GateState = GateState(subscribed: Option<Hash>, lastRender: int, clicked: Option<Hash>)

  /** Something that happens to the component: new props arrive at time
      `now`, or the user clicks a chain link. */
  datatype Event = Received(next: Option<Hash>, now: int) | Clicked(chain: Hash)

  /** Something the component does in response: render, or ask the
      connection to subscribe to a chain. */
  datatype Output = Rendered(at: int) | Subscribed(chain: Hash)

  /** `shouldComponentUpdate`'s verdict: a changed selection always renders,
      an unchanged one only once the throttle window has strictly passed. */
  function Allowed(prev: Option<Hash>, next: Option<Hash>, now: int, lastRender: int): (allowed: bool)
    ensures prev != next ==> allowed
    ensures prev == next ==> (allowed <==> now - lastRender > RENDER_THROTTLE)
  {
    prev != next || now - lastRender > RENDER_THROTTLE
  }

  /** The selection an event leaves in `clicked`. */
  function KeyOf(e: Event): Option<Hash>
  {
    match e
    case Received(next, _) => next
    case Clicked(chain) => Some(chain)
  }

  /** One event. React replaces the props whether or not the update is
      allowed; only an allowed update renders and stamps `lastRender`. */
  function Apply(g: GateState, e: Event): (r: (GateState, seq<Output>))
    ensures r.0.clicked == KeyOf(e)
    ensures |r.1| <= 1
    ensures r.0.lastRender != g.lastRender ==> r.1 == [Rendered(r.0.lastRender)]
    ensures e.Received? ==> r.0.subscribed == e.next
    ensures e.Received? && e.next != g.subscribed ==> r.1 == [Rendered(e.now)]
    ensures e.Clicked? ==> r.0.lastRender == g.lastRender && r.0.subscribed == g.subscribed
    ensures e.Clicked? ==> (r.1 == [] <==> g.clicked == Some(e.chain))
    ensures e.Received? ==>
      r.1 == (if Allowed(g.subscribed, e.next, e.now, g.lastRender) then [Rendered(e.now)] else []) &&
      r.0.lastRender == (if Allowed(g.subscribed, e.next, e.now, g.lastRender) then e.now else g.lastRender)
    ensures e.Clicked? ==> r.1 == (if g.clicked == Some(e.chain) then [] else [Subscribed(e.chain)])
  {
    match e
    case Received(next, now) =>
      if Allowed(g.subscribed, next, now, g.lastRender)
      then (GateState(next, now, next), [Rendered(now)])
      else (GateState(next, g.lastRender, next), [])
    case Clicked(chain) =>
      if g.clicked == Some(chain) then (g, [])
      else (g.(clicked := Some(chain)), [Subscribed(chain)])
  }

  /** A trace of events applied in order, with the outputs they cause: at
      most one per event, and without events nothing changes. */
  function Run(g: GateState, events: seq<Event>): (r: (GateState, seq<Output>))
    ensures |r.1| <= |events|
    ensures events == [] ==> r == (g, [])
    ensures (forall i :: 0 <= i < |events| ==> events[i].Received?) ==>
      forall o :: o in r.1 ==> o.Rendered?
    decreases |events|
  {
    if events == [] then (g, [])
    else
      var step := Apply(g, events[0]);
      var rest := Run(step.0, events[1..]);
      (rest.0, step.1 + rest.1)
  }

  /** Every output is a render, each more than the throttle window after the
      one before it (the first one after `last`). */
  predicate Spaced(last: int, outs: seq<Output>)
    decreases |outs|
  {
    outs == [] ||
    (outs[0].Rendered? && outs[0].at - last > RENDER_THROTTLE && Spaced(outs[0].at, outs[1..]))
  }

  /** The time of the last render in `outs`, or `last` if there is none. */
  function LastRender(last: int, outs: seq<Output>): int
    decreases |outs|
  {
    if outs == [] then last
    else LastRender(if outs[0].Rendered? then outs[0].at else last, outs[1..])
  }

  /** While the selection does not change, renders are more than
      RENDER_THROTTLE apart, however often props arrive. */
  lemma {:induction false} ThrottleSpacing(g: GateState, events: seq<Event>)
    requires forall i :: 0 <= i < |events| ==> events[i].Received? && events[i].next == g.subscribed
    ensures Spaced(g.lastRender, Run(g, events).1)
    decreases |events|
  {
    if events != [] {
      var step := Apply(g, events[0]);
      assert step.0.subscribed == g.subscribed;
      ThrottleSpacing(step.0, events[1..]);
      var rest := Run(step.0, events[1..]);
      if step.1 == [] {
        assert step.1 + rest.1 == rest.1;
      } else {
        assert (step.1 + rest.1)[1..] == rest.1;
      }
    }
  }

  lemma LastRenderStep(t: int, o: seq<Output>, rest: seq<Output>)
    requires |o| <= 1
    ensures LastRender(t, o + rest) == LastRender(LastRender(t, o), rest)
  {
    if o != [] {
      assert (o + rest)[1..] == rest;
      assert o[1..] == [];
    } else {
      assert o + rest == rest;
    }
  }

  /** `lastRender` moves only when a render happens, and then to its time. */
  lemma {:induction false} LastRenderTracksRenders(g: GateState, events: seq<Event>)
    ensures Run(g, events).0.lastRender == LastRender(g.lastRender, Run(g, events).1)
    decreases |events|
  {
    if events != [] {
      var step := Apply(g, events[0]);
      LastRenderTracksRenders(step.0, events[1..]);
      LastRenderStep(g.lastRender, step.1, Run(step.0, events[1..]).1);
    }
  }

  /** After any sequence of events, `clicked` holds the selection of the
      latest one, whether or not that update was allowed to render. */
  lemma {:induction false} ClickedIsLatest(g: GateState, events: seq<Event>)
    requires events != []
    ensures Run(g, events).0.clicked == KeyOf(events[|events| - 1])
    decreases |events|
  {
    var step := Apply(g, events[0]);
    if |events| > 1 {
      ClickedIsLatest(step.0, events[1..]);
      assert events[1..][|events[1..]| - 1] == events[|events| - 1];
    }
  }

  function Repeat(e: Event, n: nat): (r: seq<Event>)
    ensures |r| == n && forall i :: 0 <= i < n ==> r[i] == e
  {
    if n == 0 then [] else [e] + Repeat(e, n - 1)
  }

  /** Clicking the same chain any number of times subscribes at most once,
      and not at all when it is already the clicked chain. */
  lemma {:induction false} RepeatedClicksSubscribeOnce(g: GateState, chain: Hash, n: nat)
    requires n > 0
    ensures Run(g, Repeat(Clicked(chain), n)).1 ==
      if g.clicked == Some(chain) then [] else [Subscribed(chain)]
    ensures Run(g, Repeat(Clicked(chain), n)).0 == g.(clicked := Some(chain))
    decreases n
  {
    var events := Repeat(Clicked(chain), n);
    var step := Apply(g, Clicked(chain));
    assert events[1..] == Repeat(Clicked(chain), n - 1);
    if n > 1 {
      RepeatedClicksSubscribeOnce(step.0, chain, n - 1);
      assert step.0.clicked == Some(chain);
    }
  }

  /** A worked example of the throttle: two unchanged updates 500 ms apart
      render once; one 1100 ms after the first renders again; a changed
      selection 10 ms after a dropped update renders at once. */
  lemma ThrottleExample(h: Hash, k: Hash)
    requires h != k
    ensures Run(GateState(Some(h), 0, Some(h)),
                [Received(Some(h), 1001), Received(Some(h), 1501), Received(Some(h), 2101)]).1
            == [Rendered(1001), Rendered(2101)]
    ensures Run(GateState(Some(h), 1001, Some(h)),
                [Received(Some(h), 1501), Received(Some(k), 1511)]).1
            == [Rendered(1511)]
  {
    var g0 := GateState(Some(h), 0, Some(h));
    var e1, e2, e3 := Received(Some(h), 1001), Received(Some(h), 1501), Received(Some(h), 2101);
    var g1 := GateState(Some(h), 1001, Some(h));
    assert [e1, e2, e3][1..] == [e2, e3] && [e2, e3][1..] == [e3] && [e3][1..] == [];
    assert Run(g1, [e3]).1 == [Rendered(2101)];
    assert Run(g1, [e2, e3]).1 == [Rendered(2101)];
    assert Run(g0, [e1, e2, e3]).1 == [Rendered(1001)] + [Rendered(2101)];
    var f1, f2 := Received(Some(h), 1501), Received(Some(k), 1511);
    assert [f1, f2][1..] == [f2] && [f2][1..] == [];
    assert Run(g1, [f2]).1 == [Rendered(1511)];
  }

  // ---------------------------------------------------------------------
  // The component
  // ---------------------------------------------------------------------

  class ChainsView {
    var props: ChainsProps
    /** `state.display`: whether the settings sidebar is open. */
    var display: bool
    var lastRender: int
    var clicked: Option<Hash>
    /** The chains `connection.subscribe` was called with, in order. */
    var subscriptions: seq<Hash>

    function Gate(): GateState
      reads this
    {
      GateState(props.subscribed, lastRender, clicked)
    }

    constructor (initial: ChainsProps, now: int)
      ensures props == initial && !display && lastRender == now
      ensures clicked == None && subscriptions == []
    {
      props := initial;
      display := false;
      lastRender := now;
      clicked := None;
      subscriptions := [];
    }

    method ShouldComponentUpdate(next: ChainsProps, now: int) returns (allowed: bool)
      modifies this`clicked
      ensures clicked == next.subscribed
      ensures allowed == Allowed(props.subscribed, next.subscribed, now, lastRender)
    {
      if next.subscribed != clicked {
        clicked := next.subscribed;
      }
      allowed := props.subscribed != next.subscribed || now - lastRender > RENDER_THROTTLE;
    }

    method Render(now: int) returns (view: ChainsRender)
      modifies this`lastRender
      ensures lastRender == now
      ensures view == View(props, display)
    {
      lastRender := now;
      view := View(props, display);
    }

    /** One React update: ask `shouldComponentUpdate`, replace the props
        regardless, and render only when allowed. */
    method ReceiveProps(next: ChainsProps, now: int) returns (view: Option<ChainsRender>)
      modifies this`clicked, this`lastRender, this`props
      ensures props == next
      ensures Gate() == Apply(old(Gate()), Received(next.subscribed, now)).0
      ensures view.Some? <==> Apply(old(Gate()), Received(next.subscribed, now)).1 == [Rendered(now)]
      ensures view.Some? ==> view.value == View(next, display)
    {
      var allowed := ShouldComponentUpdate(next, now);
      props := next;
      if allowed {
        var v := Render(now);
        view := Some(v);
      } else {
        view := None;
      }
    }

    /** A click on a chain link. */
    method Subscribe(chain: Hash)
      modifies this`clicked, this`subscriptions
      ensures Gate() == Apply(old(Gate()), Clicked(chain)).0
      ensures subscriptions == old(subscriptions) + (if old(clicked) == Some(chain) then [] else [chain])
    {
      if Some(chain) == clicked {
        return;
      }
      clicked := Some(chain);
      subscriptions := subscriptions + [chain];
    }

    method SetDisplay(d: bool)
      modifies this`display
      ensures display == !d
    {
      display := !d;
    }
  }
}
