/**
 The bid schemes of the two economies. Both apply the same rules to the agents
 of one auction; the rules are functions here, and the loops that apply them to
 agents in place are proved against them.
 */
module EconomyBidding {
  import opened Wrappers
  import opened EconomyAgent

  datatype Scheme = Fixed | FixedWithEps | Holland | Unknown

  datatype Rules = Rules(base: real, epsilon: real, alpha: real, threshold: real)

  /** The part of an agent the rules read and write. */
  datatype Bidder = Bidder(bid: Option<real>, status: Status, wealth: real)

  // ---------------------------------------------------------------- the rules

  /** The highest bid among bidders of one status, if any has one. */
  function MaxBid(view: seq<Bidder>, who: Status): (m: Option<real>)
    ensures m.None? <==> forall i :: 0 <= i < |view| && view[i].status == who ==> view[i].bid.None?
    ensures m.Some? ==> forall i :: 0 <= i < |view| && view[i].status == who && view[i].bid.Some? ==> view[i].bid.value <= m.value
    ensures m.Some? ==> exists i :: 0 <= i < |view| && view[i].status == who && view[i].bid == m
  {
    if |view| == 0 then None
    else
      var rest := MaxBid(view[..|view| - 1], who);
      var b := view[|view| - 1];
      if b.status != who || b.bid.None? then rest
      else if rest.Some? && rest.value >= b.bid.value then rest
      else b.bid
  }

  /** The highest bid of all, if there is one. */
  function TopBid(view: seq<Bidder>): (m: Option<real>)
    ensures m.Some? ==> exists i :: 0 <= i < |view| && view[i].bid == m
    ensures forall i :: 0 <= i < |view| && view[i].bid.Some? ==> m.Some? && view[i].bid.value <= m.value
  {
    if |view| == 0 then None
    else
      var rest := TopBid(view[..|view| - 1]);
      var b := view[|view| - 1];
      if b.bid.None? || (rest.Some? && rest.value >= b.bid.value) then rest else b.bid
  }

  lemma TopBidIs(view: seq<Bidder>, i: nat)
    requires i < |view| && view[i].bid.Some?
    requires forall j :: 0 <= j < |view| && view[j].bid.Some? ==> view[j].bid.value <= view[i].bid.value
    ensures TopBid(view) == view[i].bid
  {
    var m := TopBid(view);
    var j :| 0 <= j < |view| && view[j].bid == m;
  }

  /** The bid a novice must top. */
  function HighBid(scheme: Scheme, rules: Rules, view: seq<Bidder>): real {
    var m := match scheme
      case FixedWithEps => MaxBid(view, Veteran)
      case Holland => MaxBid(view, Tycoon)
      case _ => None;
    if m.Some? then m.value else rules.base
  }

  /** It is the highest bid of the veterans, or of the tycoons, that have one, and the base bid if none has. */
  lemma HighBidIs(scheme: Scheme, rules: Rules, view: seq<Bidder>, who: Status)
    requires (scheme == FixedWithEps && who == Veteran) || (scheme == Holland && who == Tycoon)
    ensures var high := HighBid(scheme, rules, view);
      && (forall i :: 0 <= i < |view| && view[i].status == who && view[i].bid.Some? ==> view[i].bid.value <= high)
      && ((exists i :: 0 <= i < |view| && view[i].status == who && view[i].bid == Some(high))
          || (high == rules.base && forall i :: 0 <= i < |view| && view[i].status == who ==> view[i].bid.None?))
  {
  }

  /** A tycoon bids a share of its wealth. */
  function ShareOf(rules: Rules, wealth: real): real {
    rules.alpha * wealth
  }

  /** One bidder's new bid and status, given the bid to top. */
  function Rebid(scheme: Scheme, rules: Rules, high: real, b: Bidder): Bidder {
    match (scheme, b.status)
    case (Unknown, _) => b
    case (_, Novice) => b.(bid := Some(high + rules.epsilon), status := Veteran)
    case (Fixed, Veteran) => b.(bid := Some(rules.base))
    case (Fixed, Tycoon) => b
    case (FixedWithEps, _) => b
    case (Holland, Veteran) =>
      if b.wealth >= rules.threshold then b.(bid := Some(ShareOf(rules, b.wealth)), status := Tycoon)
      else b.(bid := Some(rules.base))
    case (Holland, Tycoon) => b.(bid := Some(ShareOf(rules, b.wealth)))
  }

  function RebidAll(scheme: Scheme, rules: Rules, view: seq<Bidder>): seq<Bidder> {
    var high := HighBid(scheme, rules, view);
    seq(|view|, i requires 0 <= i < |view| => Rebid(scheme, rules, high, view[i]))
  }

  /** Only novices may still be without a bid. */
  predicate Settled(b: Bidder) {
    b.status == Novice || b.bid.Some?
  }

  predicate Premium(scheme: Scheme, rules: Rules) {
    (scheme == Fixed || scheme == FixedWithEps) && rules.epsilon > 0.0
  }

  // ---------------------------------------------------------------- one auction

  /** Whenever a novice takes part, every top bid is a novice's. */
  lemma NoviceOutbidsAll(scheme: Scheme, rules: Rules, view: seq<Bidder>, n: nat, top: nat)
    requires Premium(scheme, rules)
    requires forall i :: 0 <= i < |view| ==> Settled(view[i]) && view[i].status != Tycoon
    requires n < |view| && view[n].status == Novice && top < |view|
    requires var after := RebidAll(scheme, rules, view);
             after[top].bid.Some? && forall i :: 0 <= i < |view| && after[i].bid.Some? ==> after[i].bid.value <= after[top].bid.value
    ensures view[top].status == Novice
  {
    var after := RebidAll(scheme, rules, view);
    assert after[n].bid.Some?;
    assert after[n].bid.value <= after[top].bid.value;
  }

  // ---------------------------------------------------------------- the history of a market

  /** What an agent shows the market. */
  datatype Tag = Tag(bid: Option<real>, status: Status)

  /** The last bid and status of everyone who ever took part, by id. */
  type Book = map<nat, Tag>

  /** What changes bids and statuses: someone joins, or an auction is held among these, who show this. */
  datatype MarketEvent =
    | Joined(id: nat, bid: Option<real>)
    | Held(active: seq<nat>, shown: seq<Bidder>, winner: nat)

  function TagOf(b: Bidder): Tag {
    Tag(b.bid, b.status)
  }

  /** The book once those listed have rebid, each in turn. */
  function Rebids(scheme: Scheme, rules: Rules, high: real, book: Book, active: seq<nat>, shown: seq<Bidder>): (b: Book)
    requires |active| == |shown| && forall id :: id in active ==> id in book
    ensures b.Keys == book.Keys
  {
    if |active| == 0 then book
    else
      var n := |active| - 1;
      var b, id := Rebids(scheme, rules, high, book, active[..n], shown[..n]), active[n];
      b[id := TagOf(Rebid(scheme, rules, high, Bidder(b[id].bid, b[id].status, shown[n].wealth)))]
  }

  /** Everyone listed ends up with a bid and as no novice; and nobody's bid is lost. */
  lemma {:induction false} RebidsSettle(
    scheme: Scheme, rules: Rules, high: real, book: Book, active: seq<nat>, shown: seq<Bidder>, id: nat)
    requires scheme != Unknown && |active| == |shown| && (forall k :: k in active ==> k in book)
    requires id in book && (book[id].status == Novice || book[id].bid.Some?)
    ensures var t := Rebids(scheme, rules, high, book, active, shown)[id];
            && (t.status == Novice || t.bid.Some?)
            && (id in active ==> t.bid.Some? && t.status != Novice)
  {
    if |active| > 0 {
      var n := |active| - 1;
      RebidsSettle(scheme, rules, high, book, active[..n], shown[..n], id);
    }
  }

  lemma RebidsNext(
    scheme: Scheme, rules: Rules, high: real, book: Book, active: seq<nat>, shown: seq<Bidder>, i: nat)
    requires i < |active| == |shown| && active[i] in book && forall id :: id in active[..i] ==> id in book
    ensures forall id :: id in active[..i + 1] ==> id in book
    ensures var b, id := Rebids(scheme, rules, high, book, active[..i], shown[..i]), active[i];
            Rebids(scheme, rules, high, book, active[..i + 1], shown[..i + 1])
            == b[id := TagOf(Rebid(scheme, rules, high, Bidder(b[id].bid, b[id].status, shown[i].wealth)))]
  {
    assert active[..i + 1][..i] == active[..i] && shown[..i + 1][..i] == shown[..i];
    assert active[..i + 1] == active[..i] + [active[i]];
  }

  /** Those listed show what the book says of them. */
  ghost predicate Listed(book: Book, active: seq<nat>, shown: seq<Bidder>) {
    |active| == |shown| && forall i :: 0 <= i < |active| ==> active[i] in book && book[active[i]] == TagOf(shown[i])
  }

  ghost function Auctioned(scheme: Scheme, rules: Rules, book: Book, active: seq<nat>, shown: seq<Bidder>): Book
    requires Listed(book, active, shown)
  {
    Rebids(scheme, rules, HighBid(scheme, rules, shown), book, active, shown)
  }

  ghost function Play(scheme: Scheme, rules: Rules, book: Book, e: MarketEvent): Book {
    match e
    case Joined(id, bid) => book[id := Tag(bid, Novice)]
    case Held(active, shown, _) =>
      if Listed(book, active, shown) then Auctioned(scheme, rules, book, active, shown) else book
  }

  /** The winner is a participant with a highest bid. */
  ghost predicate TopOf(book: Book, active: seq<nat>, winner: nat) {
    winner in active && forall id :: id in active ==>
      && id in book && book[id].bid.Some? && winner in book && book[winner].bid.Some?
      && book[id].bid.value <= book[winner].bid.value
  }

  /** Newcomers join once, as novices with no bid or a zero bid; auctions are won by a highest bidder. */
  ghost predicate Possible(scheme: Scheme, rules: Rules, book: Book, e: MarketEvent) {
    match e
    case Joined(id, bid) => id !in book && (bid.None? || bid == Some(0.0))
    case Held(active, shown, winner) =>
      Listed(book, active, shown) && TopOf(Auctioned(scheme, rules, book, active, shown), active, winner)
  }

  ghost function BookAfter(scheme: Scheme, rules: Rules, events: seq<MarketEvent>): Book {
    if |events| == 0 then map[]
    else Play(scheme, rules, BookAfter(scheme, rules, events[..|events| - 1]), events[|events| - 1])
  }

  /** A history of a market that began with nobody. */
  ghost predicate Trail(scheme: Scheme, rules: Rules, events: seq<MarketEvent>) {
    |events| > 0 ==>
      var front := events[..|events| - 1];
      Trail(scheme, rules, front) && Possible(scheme, rules, BookAfter(scheme, rules, front), events[|events| - 1])
  }

  lemma TrailGrows(scheme: Scheme, rules: Rules, events: seq<MarketEvent>, e: MarketEvent)
    requires Trail(scheme, rules, events) && Possible(scheme, rules, BookAfter(scheme, rules, events), e)
    ensures Trail(scheme, rules, events + [e])
    ensures BookAfter(scheme, rules, events + [e]) == Play(scheme, rules, BookAfter(scheme, rules, events), e)
  {
    assert (events + [e])[..|events|] == events;
  }

  lemma {:induction false} TrailPrefix(scheme: Scheme, rules: Rules, events: seq<MarketEvent>, k: nat)
    requires Trail(scheme, rules, events) && k <= |events|
    ensures Trail(scheme, rules, events[..k])
    ensures k < |events| ==> Possible(scheme, rules, BookAfter(scheme, rules, events[..k]), events[k])
    ensures k < |events| ==>
      BookAfter(scheme, rules, events[..k + 1]) == Play(scheme, rules, BookAfter(scheme, rules, events[..k]), events[k])
    decreases |events|
  {
    if k < |events| {
      var front := events[..|events| - 1];
      if k < |front| {
        TrailPrefix(scheme, rules, front, k);
        assert front[..k] == events[..k] && front[..k + 1] == events[..k + 1];
      } else {
        assert events[..k + 1] == events;
      }
    } else {
      assert events[..k] == events;
    }
  }

  /** An auction that makes a novice a veteran. */
  ghost predicate Promotes(e: MarketEvent) {
    e.Held? && exists i :: 0 <= i < |e.shown| && e.shown[i].status == Novice
  }

  ghost function Promotions(events: seq<MarketEvent>): nat {
    if |events| == 0 then 0
    else Promotions(events[..|events| - 1]) + if Promotes(events[|events| - 1]) then 1 else 0
  }

  /** No tycoons, all settled, and bids within `p` epsilons of the base. */
  ghost predicate Tame(rules: Rules, book: Book, p: nat) {
    forall id :: id in book ==> TameTag(rules, book[id], p)
  }

  ghost predicate TameTag(rules: Rules, t: Tag, p: nat) {
    Steady(t) && (t.bid.Some? ==> t.bid.value <= rules.base + Times(rules.epsilon, p))
  }

  /** No tycoon, and with a bid unless a novice. */
  predicate Steady(t: Tag) {
    t.status != Tycoon && (t.status == Novice || t.bid.Some?)
  }

  ghost predicate AllSteady(book: Book) {
    forall id :: id in book ==> Steady(book[id])
  }

  lemma {:induction false} RebidsSteady(
    scheme: Scheme, rules: Rules, high: real, book: Book, active: seq<nat>, shown: seq<Bidder>)
    requires (scheme == Fixed || scheme == FixedWithEps) && AllSteady(book)
    requires |active| == |shown| && forall id :: id in active ==> id in book
    ensures AllSteady(Rebids(scheme, rules, high, book, active, shown))
  {
    if |active| > 0 {
      var n := |active| - 1;
      RebidsSteady(scheme, rules, high, book, active[..n], shown[..n]);
    }
  }

  /** Under the fixed schemes nobody ever becomes a tycoon. */
  lemma {:induction false} TrailSteady(scheme: Scheme, rules: Rules, events: seq<MarketEvent>)
    requires (scheme == Fixed || scheme == FixedWithEps) && Trail(scheme, rules, events)
    ensures AllSteady(BookAfter(scheme, rules, events))
  {
    if |events| > 0 {
      var front, last := events[..|events| - 1], events[|events| - 1];
      TrailSteady(scheme, rules, front);
      if last.Held? {
        RebidsSteady(scheme, rules, HighBid(scheme, rules, last.shown), BookAfter(scheme, rules, front),
                     last.active, last.shown);
      }
    }
  }

  lemma {:induction false} TimesGrows(amount: real, p: nat)
    requires amount > 0.0
    ensures Times(amount, p) >= 0.0 && Times(amount, p + 1) > Times(amount, p)
  {
    if p > 0 {
      TimesGrows(amount, p - 1);
    }
  }

  /** Rebidding keeps bids within reach, one epsilon further if a novice takes part. */
  lemma {:induction false} RebidsTame(
    scheme: Scheme, rules: Rules, high: real, book: Book, active: seq<nat>, shown: seq<Bidder>, q: nat)
    requires Premium(scheme, rules) && |active| == |shown| && forall id :: id in active ==> id in book
    requires Times(rules.epsilon, q) >= 0.0 && Tame(rules, book, q)
    requires high + rules.epsilon <= rules.base + Times(rules.epsilon, q) || forall id :: id in active ==> book[id].status != Novice
    ensures Tame(rules, Rebids(scheme, rules, high, book, active, shown), q)
    ensures forall id :: id in book && book[id].status != Novice ==>
      Rebids(scheme, rules, high, book, active, shown)[id].status != Novice
  {
    if |active| > 0 {
      var n := |active| - 1;
      RebidsTame(scheme, rules, high, book, active[..n], shown[..n], q);
    }
  }

  lemma HighIsTame(scheme: Scheme, rules: Rules, book: Book, active: seq<nat>, shown: seq<Bidder>, p: nat)
    requires Premium(scheme, rules) && Listed(book, active, shown) && Tame(rules, book, p)
    ensures HighBid(scheme, rules, shown) <= rules.base + Times(rules.epsilon, p)
  {
    TimesGrows(rules.epsilon, p);
    if MaxBid(shown, Veteran).Some? {
      var i :| 0 <= i < |shown| && shown[i].status == Veteran && shown[i].bid == MaxBid(shown, Veteran);
      assert TameTag(rules, book[active[i]], p);
    }
  }

  lemma TameLater(rules: Rules, book: Book, p: nat)
    requires rules.epsilon > 0.0 && Tame(rules, book, p)
    ensures Tame(rules, book, p + 1)
  {
    TimesGrows(rules.epsilon, p);
    forall id | id in book ensures TameTag(rules, book[id], p + 1) {
      assert TameTag(rules, book[id], p);
    }
  }

  lemma EventTame(scheme: Scheme, rules: Rules, book: Book, e: MarketEvent, p: nat)
    requires Premium(scheme, rules) && rules.base >= 0.0 && Possible(scheme, rules, book, e) && Tame(rules, book, p)
    ensures Tame(rules, Play(scheme, rules, book, e), if Promotes(e) then p + 1 else p)
  {
    TimesGrows(rules.epsilon, p);
    match e
    case Joined(id, bid) =>
      forall k | k in book ensures TameTag(rules, book[k], p) {}
    case Held(active, shown, winner) =>
      HighIsTame(scheme, rules, book, active, shown, p);
      if Promotes(e) {
        TameLater(rules, book, p);
        TimesGrows(rules.epsilon, p + 1);
        RebidsTame(scheme, rules, HighBid(scheme, rules, shown), book, active, shown, p + 1);
      } else {
        forall id | id in active ensures book[id].status != Novice {
          var i :| 0 <= i < |active| && active[i] == id;
          assert shown[i].status != Novice;
        }
        RebidsTame(scheme, rules, HighBid(scheme, rules, shown), book, active, shown, p);
      }
  }

  /** Over any history: nobody is a tycoon, and bids grow by at most epsilon per promoting auction. */
  lemma {:induction false} TrailTame(scheme: Scheme, rules: Rules, events: seq<MarketEvent>)
    requires Premium(scheme, rules) && rules.base >= 0.0 && Trail(scheme, rules, events)
    ensures Tame(rules, BookAfter(scheme, rules, events), Promotions(events))
  {
    if |events| > 0 {
      var front := events[..|events| - 1];
      TrailTame(scheme, rules, front);
      EventTame(scheme, rules, BookAfter(scheme, rules, front), events[|events| - 1], Promotions(front));
    }
  }

  /** Nobody is listed twice. */
  ghost predicate NoRepeats(ids: seq<nat>) {
    |ids| > 0 ==> NoRepeats(ids[..|ids| - 1]) && ids[|ids| - 1] !in ids[..|ids| - 1]
  }

  /** Rebidding touches only those listed. */
  lemma {:induction false} RebidsElsewhere(
    scheme: Scheme, rules: Rules, high: real, book: Book, active: seq<nat>, shown: seq<Bidder>, id: nat)
    requires |active| == |shown| && (forall k :: k in active ==> k in book) && id in book && id !in active
    ensures Rebids(scheme, rules, high, book, active, shown)[id] == book[id]
  {
    if |active| > 0 {
      var n := |active| - 1;
      RebidsElsewhere(scheme, rules, high, book, active[..n], shown[..n], id);
    }
  }

  /** Listed once, each rebids once. */
  lemma {:induction false} RebidsOnce(
    scheme: Scheme, rules: Rules, high: real, book: Book, active: seq<nat>, shown: seq<Bidder>, i: nat)
    requires Listed(book, active, shown) && NoRepeats(active) && i < |active|
    ensures Rebids(scheme, rules, high, book, active, shown)[active[i]] == TagOf(Rebid(scheme, rules, high, shown[i]))
  {
    var n := |active| - 1;
    if i < n {
      RebidsOnce(scheme, rules, high, book, active[..n], shown[..n], i);
      assert active[i] in active[..n];
    } else {
      RebidsElsewhere(scheme, rules, high, book, active[..n], shown[..n], active[n]);
    }
  }

  /** So what everyone shows after an auction can be read off what they showed before it. */
  lemma AuctionedViews(
    scheme: Scheme, rules: Rules, book: Book, after: Book, active: seq<nat>, shown: seq<Bidder>, view: seq<Bidder>)
    requires Listed(book, active, shown) && NoRepeats(active) && Listed(after, active, view)
    requires after == Auctioned(scheme, rules, book, active, shown)
    requires forall i :: 0 <= i < |view| ==> view[i].wealth == shown[i].wealth
    ensures view == RebidAll(scheme, rules, shown)
  {
    forall i | 0 <= i < |view| ensures view[i] == RebidAll(scheme, rules, shown)[i] {
      RebidsOnce(scheme, rules, HighBid(scheme, rules, shown), book, active, shown, i);
    }
  }

  /** In every auction of the history each participant is listed once. */
  ghost predicate OnceEach(events: seq<MarketEvent>) {
    |events| > 0 ==>
      var last := events[|events| - 1];
      OnceEach(events[..|events| - 1]) && (last.Held? ==> NoRepeats(last.active))
  }

  lemma {:induction false} OnceEachAt(events: seq<MarketEvent>, k: nat)
    requires OnceEach(events) && k < |events| && events[k].Held?
    ensures NoRepeats(events[k].active)
  {
    if k < |events| - 1 {
      OnceEachAt(events[..|events| - 1], k);
    }
  }

  lemma OnceEachGrows(events: seq<MarketEvent>, e: MarketEvent)
    requires OnceEach(events) && (e.Held? ==> NoRepeats(e.active))
    ensures OnceEach(events + [e])
  {
    assert (events + [e])[..|events|] == events;
  }

  /** Everyone who joined has an id below `n`. */
  ghost predicate JoinedBelow(events: seq<MarketEvent>, n: nat) {
    |events| > 0 ==>
      var last := events[|events| - 1];
      JoinedBelow(events[..|events| - 1], n) && (last.Joined? ==> last.id < n)
  }

  lemma JoinedBelowGrows(events: seq<MarketEvent>, e: MarketEvent, n: nat)
    requires JoinedBelow(events, n) && (e.Joined? ==> e.id < n)
    ensures JoinedBelow(events + [e], n)
  {
    assert (events + [e])[..|events|] == events;
  }

  lemma {:induction false} JoinedBelowLater(events: seq<MarketEvent>, n: nat, m: nat)
    requires JoinedBelow(events, n) && n <= m
    ensures JoinedBelow(events, m)
  {
    if |events| > 0 {
      JoinedBelowLater(events[..|events| - 1], n, m);
    }
  }

  /** Only those who joined are in the book. */
  lemma {:induction false} BookBelow(scheme: Scheme, rules: Rules, events: seq<MarketEvent>, n: nat, id: nat)
    requires JoinedBelow(events, n) && id in BookAfter(scheme, rules, events)
    ensures id < n
  {
    if |events| > 0 {
      var front, last := events[..|events| - 1], events[|events| - 1];
      if id in BookAfter(scheme, rules, front) {
        BookBelow(scheme, rules, front, n, id);
      }
    }
  }

  /** Under "fixed_with_eps" rebidding changes novices alone, however often they are listed. */
  lemma {:induction false} RebidsWithEps(
    rules: Rules, high: real, book: Book, active: seq<nat>, shown: seq<Bidder>, id: nat)
    requires |active| == |shown| && (forall k :: k in active ==> k in book) && id in book
    ensures Rebids(FixedWithEps, rules, high, book, active, shown)[id]
            == if id in active && book[id].status == Novice then Tag(Some(high + rules.epsilon), Veteran) else book[id]
  {
    if |active| > 0 {
      var n := |active| - 1;
      RebidsWithEps(rules, high, book, active[..n], shown[..n], id);
      RebidsWithEps(rules, high, book, active[..n], shown[..n], active[n]);
      assert active == active[..n] + [active[n]];
    }
  }

  /** How often somebody is listed. */
  ghost function Listings(active: seq<nat>, id: nat): (n: nat)
    ensures n > 0 <==> id in active
  {
    if |active| == 0 then 0
    else
      var n := |active| - 1;
      assert active == active[..n] + [active[n]];
      Listings(active[..n], id) + if active[n] == id then 1 else 0
  }

  lemma {:induction false} ListedOnce(active: seq<nat>, id: nat)
    requires NoRepeats(active) && id in active
    ensures Listings(active, id) == 1
  {
    var n := |active| - 1;
    assert active == active[..n] + [active[n]];
    if active[n] != id {
      ListedOnce(active[..n], id);
    }
  }

  /** Under "fixed" a novice listed once bids the premium; listed again, it drops back to the base bid. */
  lemma {:induction false} RebidsFixed(
    rules: Rules, high: real, book: Book, active: seq<nat>, shown: seq<Bidder>, id: nat)
    requires |active| == |shown| && (forall k :: k in active ==> k in book) && id in book && book[id].status != Tycoon
    ensures Rebids(Fixed, rules, high, book, active, shown)[id] == FixedTag(rules, high, book[id], Listings(active, id))
  {
    if |active| > 0 {
      var n := |active| - 1;
      RebidsFixed(rules, high, book, active[..n], shown[..n], id);
    }
  }

  function FixedTag(rules: Rules, high: real, t: Tag, listings: nat): Tag {
    if listings == 0 then t
    else if listings == 1 && t.status == Novice then Tag(Some(high + rules.epsilon), Veteran)
    else Tag(Some(rules.base), Veteran)
  }

  /**
   Under "holland" a novice listed once tops the tycoons; listed again, and
   otherwise, whoever has reached the threshold becomes a tycoon, a tycoon bids a
   share of its wealth, and everyone else the base bid.
   */
  lemma {:induction false} RebidsHolland(
    rules: Rules, high: real, book: Book, active: seq<nat>, shown: seq<Bidder>, id: nat, wealth: real)
    requires |active| == |shown| && (forall k :: k in active ==> k in book) && id in book
    requires forall i :: 0 <= i < |active| && active[i] == id ==> shown[i].wealth == wealth
    ensures var t, was := Rebids(Holland, rules, high, book, active, shown)[id], book[id];
      if Listings(active, id) == 0 then t == was
      else if was.status == Novice && Listings(active, id) == 1 then t == Tag(Some(high + rules.epsilon), Veteran)
      else if was.status == Tycoon || wealth >= rules.threshold then t == Tag(Some(rules.alpha * wealth), Tycoon)
      else t == Tag(Some(rules.base), Veteran)
  {
    assert ShareOf(rules, wealth) == rules.alpha * wealth;
    if |active| > 0 {
      var n := |active| - 1;
      assert active[n] == id ==> shown[n].wealth == wealth;
      RebidsHolland(rules, high, book, active[..n], shown[..n], id, wealth);
    }
  }

  /**
   When a novice is sure to win: under "fixed_with_eps" if one takes part; under
   "fixed" if one is listed exactly once, or nobody else is listed.
   */
  ghost predicate NoviceSure(scheme: Scheme, active: seq<nat>, shown: seq<Bidder>)
    requires |active| == |shown|
  {
    if scheme == FixedWithEps then exists i :: 0 <= i < |shown| && shown[i].status == Novice
    else
      || (exists i :: 0 <= i < |shown| && shown[i].status == Novice && Listings(active, active[i]) == 1)
      || (forall i :: 0 <= i < |shown| ==> shown[i].status == Novice)
  }

  /** What somebody bids in an auction under the fixed schemes. */
  lemma BidIs(scheme: Scheme, rules: Rules, book: Book, active: seq<nat>, shown: seq<Bidder>, i: nat)
    requires Premium(scheme, rules) && Listed(book, active, shown) && i < |active| && AllSteady(book)
    ensures var bid, high := Auctioned(scheme, rules, book, active, shown)[active[i]].bid, HighBid(scheme, rules, shown);
            && bid.Some?
            && (scheme == Fixed ==>
                  var once := shown[i].status == Novice && Listings(active, active[i]) == 1;
                  bid.value == rules.base + if once then rules.epsilon else 0.0)
            && (scheme == FixedWithEps ==>
                  if shown[i].status == Novice then bid.value == high + rules.epsilon else bid.value <= high)
  {
    var high := HighBid(scheme, rules, shown);
    assert Steady(book[active[i]]) && active[i] in active;
    if scheme == FixedWithEps {
      RebidsWithEps(rules, high, book, active, shown, active[i]);
    } else {
      RebidsFixed(rules, high, book, active, shown, active[i]);
    }
  }

  /** Somebody has a highest bid. */
  lemma {:induction false} SomebodyTops(book: Book, active: seq<nat>) returns (winner: nat)
    requires |active| > 0 && forall id :: id in active ==> id in book && book[id].bid.Some?
    ensures TopOf(book, active, winner)
  {
    var n := |active| - 1;
    assert active == active[..n] + [active[n]];
    winner := active[n];
    if n > 0 {
      var best := SomebodyTops(book, active[..n]);
      winner := if book[best].bid.value > book[winner].bid.value then best else winner;
    }
  }

  lemma AllBid(scheme: Scheme, rules: Rules, book: Book, active: seq<nat>, shown: seq<Bidder>)
    requires Premium(scheme, rules) && Listed(book, active, shown) && AllSteady(book)
    ensures forall id :: id in active ==> Auctioned(scheme, rules, book, active, shown)[id].bid.Some?
  {
    forall id | id in active ensures Auctioned(scheme, rules, book, active, shown)[id].bid.Some? {
      var i :| 0 <= i < |active| && active[i] == id;
      BidIs(scheme, rules, book, active, shown, i);
    }
  }

  lemma SureNoviceTops(scheme: Scheme, rules: Rules, book: Book, active: seq<nat>, shown: seq<Bidder>, w: nat)
    requires Premium(scheme, rules) && Listed(book, active, shown) && AllSteady(book)
    requires NoviceSure(scheme, active, shown) && TopOf(Auctioned(scheme, rules, book, active, shown), active, w)
    ensures w in book && book[w].status == Novice
  {
    var top :| 0 <= top < |active| && active[top] == w;
    if shown[top].status != Novice {
      var n :| 0 <= n < |shown| && shown[n].status == Novice && (scheme == Fixed ==> Listings(active, active[n]) == 1);
      assert active[n] in active;
      BidIs(scheme, rules, book, active, shown, n);
      BidIs(scheme, rules, book, active, shown, top);
    }
  }

  lemma UnsureNoviceMayLose(scheme: Scheme, rules: Rules, book: Book, active: seq<nat>, shown: seq<Bidder>)
    returns (w: nat)
    requires Premium(scheme, rules) && Listed(book, active, shown) && AllSteady(book) && |active| > 0
    requires !NoviceSure(scheme, active, shown)
    ensures TopOf(Auctioned(scheme, rules, book, active, shown), active, w) && w in book && book[w].status != Novice
  {
    AllBid(scheme, rules, book, active, shown);
    var after := Auctioned(scheme, rules, book, active, shown);
    if scheme == FixedWithEps {
      w := SomebodyTops(after, active);
      var i :| 0 <= i < |active| && active[i] == w;
      assert shown[i].status != Novice;
    } else {
      var j :| 0 <= j < |shown| && shown[j].status != Novice;
      w := active[j];
      forall id | id in active ensures after[id].bid.Some? && after[id].bid.value <= after[w].bid.value {
        var i :| 0 <= i < |active| && active[i] == id;
        BidIs(scheme, rules, book, active, shown, i);
        BidIs(scheme, rules, book, active, shown, j);
      }
    }
  }

  /** Every possible winner of an auction was a novice if and only if that is so. */
  lemma NoviceWinsExactly(scheme: Scheme, rules: Rules, book: Book, active: seq<nat>, shown: seq<Bidder>)
    requires Premium(scheme, rules) && Listed(book, active, shown) && AllSteady(book) && |active| > 0
    ensures (forall w :: TopOf(Auctioned(scheme, rules, book, active, shown), active, w) ==>
               w in book && book[w].status == Novice)
            <==> NoviceSure(scheme, active, shown)
  {
    if NoviceSure(scheme, active, shown) {
      forall w | TopOf(Auctioned(scheme, rules, book, active, shown), active, w)
        ensures w in book && book[w].status == Novice
      {
        SureNoviceTops(scheme, rules, book, active, shown, w);
      }
    } else {
      var w := UnsureNoviceMayLose(scheme, rules, book, active, shown);
    }
  }

  /** Listed once each, any novice makes it sure. */
  lemma OnceIsSure(scheme: Scheme, active: seq<nat>, shown: seq<Bidder>, n: nat)
    requires |active| == |shown| && NoRepeats(active) && n < |shown| && shown[n].status == Novice
    ensures NoviceSure(scheme, active, shown)
  {
    ListedOnce(active, active[n]);
  }

  /** In every auction of a history where a novice is sure to win, a novice has won. */
  lemma NoviceWins(scheme: Scheme, rules: Rules, events: seq<MarketEvent>, k: nat)
    requires Premium(scheme, rules) && Trail(scheme, rules, events)
    requires k < |events| && SureAuction(scheme, events[k])
    ensures NoviceWonAt(scheme, rules, events, k)
  {
    TrailPrefix(scheme, rules, events, k);
    TrailSteady(scheme, rules, events[..k]);
    var book, active, shown := BookAfter(scheme, rules, events[..k]), events[k].active, events[k].shown;
    SureNoviceTops(scheme, rules, book, active, shown, events[k].winner);
  }

  ghost predicate SureAuction(scheme: Scheme, e: MarketEvent) {
    e.Held? && |e.active| == |e.shown| && NoviceSure(scheme, e.active, e.shown)
  }

  /** Under "fixed" a novice listed twice drops back to the base bid, and may lose to a veteran. */
  lemma NoviceListedTwiceMayLose(rules: Rules, novice: nat, veteran: nat)
    requires novice != veteran
    ensures var book := map[novice := Tag(None, Novice), veteran := Tag(Some(rules.base), Veteran)];
            var newcomer, resident := Bidder(None, Novice, 0.0), Bidder(Some(rules.base), Veteran, 0.0);
            Possible(Fixed, rules, book, Held([novice, novice, veteran], [newcomer, newcomer, resident], veteran))
  {
    var book := map[novice := Tag(None, Novice), veteran := Tag(Some(rules.base), Veteran)];
    var newcomer, resident := Bidder(None, Novice, 0.0), Bidder(Some(rules.base), Veteran, 0.0);
    var active, shown := [novice, novice, veteran], [newcomer, newcomer, resident];
    RebidsFixed(rules, rules.base, book, active, shown, novice);
    RebidsFixed(rules, rules.base, book, active, shown, veteran);
    assert active[..2] == [novice, novice] && [novice, novice][..1] == [novice];
    assert Listings([novice], novice) == 1 && Listings([novice, novice], novice) == 2;
    assert Listings([novice], veteran) == 0 && Listings([novice, novice], veteran) == 0;
  }

  /** Under "fixed_with_eps" a veteran's bid never changes. */
  lemma {:induction false} VeteranBidStands(rules: Rules, events: seq<MarketEvent>, i: nat, id: nat)
    requires Trail(FixedWithEps, rules, events) && i <= |events|
    requires id in BookAfter(FixedWithEps, rules, events[..i])
    requires BookAfter(FixedWithEps, rules, events[..i])[id].status == Veteran
    ensures id in BookAfter(FixedWithEps, rules, events)
    ensures BookAfter(FixedWithEps, rules, events)[id] == BookAfter(FixedWithEps, rules, events[..i])[id]
    decreases |events|
  {
    if i == |events| {
      assert events[..i] == events;
    } else {
      var front, last := events[..|events| - 1], events[|events| - 1];
      assert front[..i] == events[..i];
      VeteranBidStands(rules, front, i, id);
      var book := BookAfter(FixedWithEps, rules, front);
      if last.Held? {
        RebidsWithEps(rules, HighBid(FixedWithEps, rules, last.shown), book, last.active, last.shown, id);
      }
    }
  }

  /** A veteran of an earlier book is one of the book now. */
  lemma VeteranStaysBooked(rules: Rules, before: seq<MarketEvent>, events: seq<MarketEvent>, id: nat)
    requires Trail(FixedWithEps, rules, events) && before <= events
    ensures var was, now := BookAfter(FixedWithEps, rules, before), BookAfter(FixedWithEps, rules, events);
            id in was && was[id].status == Veteran ==> id in now && now[id] == was[id]
  {
    var was := BookAfter(FixedWithEps, rules, before);
    if id in was && was[id].status == Veteran {
      assert events[..|before|] == before;
      VeteranBidStands(rules, events, |before|, id);
    }
  }

  // ---------------------------------------------------------------- the loops over agents

  function ViewAgent(a: Agent): Bidder
    reads a
  {
    Bidder(a.bid, a.status, a.wealth)
  }

  function View(agents: seq<Agent>): (v: seq<Bidder>)
    reads agents
    ensures |v| == |agents| && forall i :: 0 <= i < |agents| ==> v[i] == ViewAgent(agents[i])
  {
    seq(|agents|, i requires 0 <= i < |agents| reads agents => ViewAgent(agents[i]))
  }

  /** The highest bid of one status, or the base bid. */
  method FindHighBid(active: seq<Agent>, who: Status, base: real) returns (high: real)
    ensures high == var m := MaxBid(View(active), who); if m.Some? then m.value else base
  {
    var best: Option<real> := None;
    ghost var view := View(active);
    for i := 0 to |active|
      invariant best == MaxBid(view[..i], who)
    {
      assert view[..i + 1][..i] == view[..i] && view[i] == ViewAgent(active[i]);
      var a := active[i];
      if a.status == who && a.bid.Some? && (best.None? || a.bid.value > best.value) {
        best := a.bid;
      }
    }
    assert view[..|active|] == view;
    high := if best.Some? then best.value else base;
  }

  /** The ids of some agents, in order. */
  ghost function IdSeq(agents: seq<Agent>): (ids: seq<nat>)
    ensures |ids| == |agents| && forall i :: 0 <= i < |agents| ==> ids[i] == agents[i].id
  {
    if |agents| == 0 then [] else IdSeq(agents[..|agents| - 1]) + [agents[|agents| - 1].id]
  }

  function AgentTag(a: Agent): Tag
    reads a`bid, a`status
  {
    Tag(a.bid, a.status)
  }

  /** The book has these agents as they are. */
  ghost predicate Entered(agents: seq<Agent>, book: Book)
    reads agents`bid, agents`status
  {
    forall a :: a in agents ==> a.id in book && book[a.id] == AgentTag(a)
  }

  /** Told apart by ids below `n`, and with a bid unless a novice. */
  ghost predicate Fit(agents: seq<Agent>, n: nat)
    reads agents`bid, agents`status
  {
    DistinctIds(agents) && forall a :: a in agents ==> a.id < n && (a.status == Novice || a.bid.Some?)
  }

  /**
   These agents are fit, and their bids and statuses come from a history in which
   ids stay below `n`; with `once`, one without repeated participants.
   */
  ghost predicate Explained(
    agents: seq<Agent>, scheme: Scheme, rules: Rules, events: seq<MarketEvent>, n: nat, once: bool)
    reads agents`bid, agents`status
  {
    if |agents| == 0 then Trail(scheme, rules, events) && JoinedBelow(events, n) && (once ==> OnceEach(events))
    else
      var front, a := agents[..|agents| - 1], agents[|agents| - 1];
      && Explained(front, scheme, rules, events, n, once)
      && a.id !in Ids(front) && a.id < n && (a.status == Novice || a.bid.Some?)
      && a.id in BookAfter(scheme, rules, events) && BookAfter(scheme, rules, events)[a.id] == AgentTag(a)
  }

  lemma {:induction false} ExplainedIs(
    agents: seq<Agent>, scheme: Scheme, rules: Rules, events: seq<MarketEvent>, n: nat, once: bool)
    ensures Explained(agents, scheme, rules, events, n, once) <==>
            && Trail(scheme, rules, events) && JoinedBelow(events, n) && (once ==> OnceEach(events))
            && Fit(agents, n) && Entered(agents, BookAfter(scheme, rules, events))
  {
    if |agents| > 0 {
      var front, last := agents[..|agents| - 1], agents[|agents| - 1];
      assert agents == front + [last];
      ExplainedIs(front, scheme, rules, events, n, once);
    }
  }

  /** Whoever shares an id is the same agent. */
  ghost predicate Told(agents: seq<Agent>) {
    forall a, b :: a in agents && b in agents && a.id == b.id ==> a == b
  }

  lemma EnteredListed(agents: seq<Agent>, book: Book)
    requires Entered(agents, book)
    ensures Listed(book, IdSeq(agents), View(agents))
  {
    forall i | 0 <= i < |agents| ensures agents[i].id in book && book[agents[i].id] == TagOf(View(agents)[i]) {
      assert agents[i] in agents;
    }
  }

  /**
   Bid initialization for one auction; an unknown scheme is refused. Every agent
   ends up with what the book says of it once all have rebid in turn, so one
   that is listed twice rebids twice.
   */
  method InitializeBids(active: seq<Agent>, scheme: Scheme, rules: Rules, ghost book: Book) returns (known: bool)
    requires Entered(active, book) && Told(active)
    modifies Members(active)`bid, Members(active)`status
    ensures known <==> scheme != Unknown
    ensures !known ==> forall a :: a in active ==> AgentTag(a) == old(AgentTag(a))
    ensures known ==> Listed(book, IdSeq(active), old(View(active)))
    ensures known ==> Entered(active, Auctioned(scheme, rules, book, IdSeq(active), old(View(active))))
    ensures forall a :: a in active && old(Settled(ViewAgent(a))) ==> Settled(ViewAgent(a)) && (known ==> a.bid.Some?)
  {
    EnteredListed(active, book);
    ghost var was, ids := View(active), IdSeq(active);
    if scheme == Unknown {
      return false;
    }
    var high := rules.base;
    if scheme == FixedWithEps {
      high := FindHighBid(active, Veteran, rules.base);
    } else if scheme == Holland {
      high := FindHighBid(active, Tycoon, rules.base);
    }
    RebidEach(active, scheme, rules, high, book, ids, was);
    forall a | a in active && old(Settled(ViewAgent(a))) ensures Settled(ViewAgent(a)) && a.bid.Some? {
      var i :| 0 <= i < |active| && active[i] == a;
      RebidsSettle(scheme, rules, high, book, ids, was, ids[i]);
    }
    return true;
  }

  method RebidEach(
    active: seq<Agent>, scheme: Scheme, rules: Rules, high: real, ghost book: Book, ghost ids: seq<nat>, ghost was: seq<Bidder>)
    requires scheme != Unknown && Entered(active, book) && Told(active) && |ids| == |was| == |active|
    requires forall i :: 0 <= i < |active| ==> ids[i] == active[i].id && was[i].wealth == active[i].wealth
    modifies Members(active)`bid, Members(active)`status
    ensures (forall id :: id in ids ==> id in book) && Entered(active, Rebids(scheme, rules, high, book, ids, was))
  {
    ghost var now := book;
    for i := 0 to |active|
      invariant Entered(active, now) && now.Keys == book.Keys
      invariant (forall id :: id in ids[..i] ==> id in book) && now == Rebids(scheme, rules, high, book, ids[..i], was[..i])
    {
      RebidsNext(scheme, rules, high, book, ids, was, i);
      RebidListed(active, active[i], scheme, rules, high, now);
      now := now[ids[i] := TagOf(Rebid(scheme, rules, high, Bidder(now[ids[i]].bid, now[ids[i]].status, was[i].wealth)))];
    }
    assert ids[..|active|] == ids && was[..|active|] == was;
  }

  method RebidListed(active: seq<Agent>, a: Agent, scheme: Scheme, rules: Rules, high: real, ghost book: Book)
    requires scheme != Unknown && Entered(active, book) && Told(active) && a in active
    modifies a`bid, a`status
    ensures Entered(active, book[a.id := TagOf(Rebid(scheme, rules, high, old(ViewAgent(a))))])
  {
    RebidAgent(a, scheme, rules, high);
  }

  method RebidAgent(a: Agent, scheme: Scheme, rules: Rules, high: real)
    requires scheme != Unknown
    modifies a`bid, a`status
    ensures ViewAgent(a) == Rebid(scheme, rules, high, old(ViewAgent(a)))
  {
    if a.status == Novice {
      a.bid, a.status := Some(high + rules.epsilon), Veteran;
    } else if scheme == Fixed {
      if a.status == Veteran {
        a.bid := Some(rules.base);
      }
    } else if scheme == Holland {
      if a.status == Veteran {
        if a.wealth >= rules.threshold {
          a.status := Tycoon;
          a.bid := Some(ShareOf(rules, a.wealth));
        } else {
          a.bid := Some(rules.base);
        }
      } else {
        a.bid := Some(ShareOf(rules, a.wealth));
      }
    }
  }

  /** First price: some agent with the highest bid, chosen by `choice` among the ties. */
  method SelectWinner(active: seq<Agent>, choice: nat) returns (winner: Agent, payment: real)
    requires active != [] && forall a :: a in active ==> a.bid.Some?
    ensures winner in active && winner.bid == Some(payment) == TopBid(View(active))
    ensures forall a :: a in active ==> a.bid.value <= payment
  {
    var best := active[0].bid.value;
    for i := 1 to |active|
      invariant exists a :: a in active && a.bid.value == best
      invariant forall j :: 0 <= j < i ==> active[j].bid.value <= best
    {
      if active[i].bid.value > best {
        best := active[i].bid.value;
        assert active[i] in active;
      }
    }
    var top: seq<Agent> := [];
    for i := 0 to |active|
      invariant forall a :: a in top <==> a in active[..i] && a.bid.value == best
    {
      if active[i].bid.value == best {
        top := top + [active[i]];
      }
      assert active[..i + 1] == active[..i] + [active[i]];
    }
    assert active[..|active|] == active;
    winner := top[choice % |top|];
    payment := best;
    assert winner in top;
    var t :| 0 <= t < |active| && active[t] == winner;
    TopBidIs(View(active), t);
  }

  // ---------------------------------------------------------------- whole auctions

  lemma {:induction false} IdSeqIds(agents: seq<Agent>, id: nat)
    ensures id in IdSeq(agents) <==> id in Ids(agents)
  {
    if |agents| > 0 {
      IdSeqIds(agents[..|agents| - 1], id);
    }
  }

  lemma {:induction false} DistinctNoRepeats(agents: seq<Agent>)
    requires DistinctIds(agents)
    ensures NoRepeats(IdSeq(agents))
  {
    if |agents| > 0 {
      var front := agents[..|agents| - 1];
      DistinctNoRepeats(front);
      IdSeqIds(front, agents[|agents| - 1].id);
      assert IdSeq(agents)[..|agents| - 1] == IdSeq(front);
    }
  }

  lemma RosterTold(roster: seq<Agent>, active: seq<Agent>)
    requires DistinctIds(roster) && Members(active) <= Members(roster)
    ensures Told(active)
    ensures forall a :: a in roster && a !in active ==> a.id !in IdSeq(active)
  {
    MembersIn(active, roster);
    forall a, b | a in roster && b in roster && a.id == b.id ensures a == b {
      SameIdSame(roster, a, b);
    }
    forall a | a in roster && a !in active ensures a.id !in IdSeq(active) {
      IdSeqIds(active, a.id);
      if a.id in Ids(active) {
        IdHeld(active, a.id);
      }
    }
  }

  /** What an auction among these agents does to the book. */
  ghost function AuctionBook(scheme: Scheme, rules: Rules, book: Book, active: seq<Agent>): Book
    requires Entered(active, book)
    reads active
  {
    EnteredListed(active, book);
    Auctioned(scheme, rules, book, IdSeq(active), View(active))
  }

  /** Rebidding among some of a roster touches no money, and everyone ends up as the book says. */
  method OpenBidding(
    active: seq<Agent>, scheme: Scheme, rules: Rules, ghost book: Book, ghost roster: seq<Agent>, ghost n: nat)
    requires scheme != Unknown && Fit(roster, n) && Entered(roster, book)
    requires Members(active) <= Members(roster) && Entered(active, book)
    modifies Members(active)`bid, Members(active)`status
    ensures Fit(roster, n) && Entered(roster, old(AuctionBook(scheme, rules, book, active)))
    ensures forall a :: a in active ==> a.bid.Some?
    ensures Wealth(roster) == old(Wealth(roster)) && Capability(roster) == old(Capability(roster))
  {
    RosterTold(roster, active);
    MembersIn(active, roster);
    ghost var ws, cs, was := Wealths(roster), Capabilities(roster), View(active);
    ghost var after := AuctionBook(scheme, rules, book, active);
    TotalsAreSums(roster);
    var known := InitializeBids(active, scheme, rules, book);
    TotalsAreSums(roster);
    assert Wealths(roster) == ws && Capabilities(roster) == cs;
    forall a | a in roster ensures a.id in after && after[a.id] == AgentTag(a) {
      if a !in active {
        RebidsElsewhere(scheme, rules, HighBid(scheme, rules, was), book, IdSeq(active), was, a.id);
      }
    }
  }

  /** Rebidding, with what bidders listed once show afterwards. */
  method Reopen(
    active: seq<Agent>, scheme: Scheme, rules: Rules, ghost book: Book, ghost roster: seq<Agent>, ghost n: nat)
    requires scheme != Unknown && Fit(roster, n) && Entered(roster, book)
    requires Members(active) <= Members(roster) && Entered(active, book)
    modifies Members(active)`bid, Members(active)`status
    ensures Fit(roster, n) && Entered(roster, old(AuctionBook(scheme, rules, book, active)))
    ensures forall a :: a in active ==> a.bid.Some?
    ensures DistinctIds(active) ==> View(active) == RebidAll(scheme, rules, old(View(active)))
    ensures Wealth(roster) == old(Wealth(roster)) && Capability(roster) == old(Capability(roster))
  {
    ghost var was, after := View(active), AuctionBook(scheme, rules, book, active);
    EnteredListed(active, book);
    MembersIn(active, roster);
    OpenBidding(active, scheme, rules, book, roster, n);
    if DistinctIds(active) {
      DistinctNoRepeats(active);
      EnteredListed(active, after);
      AuctionedViews(scheme, rules, book, after, IdSeq(active), was, View(active));
    }
  }

  /** A winner with the highest bid is a winner in the book. */
  lemma WinnerTops(active: seq<Agent>, book: Book, winner: Agent)
    requires Entered(active, book) && winner in active && winner.bid.Some?
    requires forall a :: a in active ==> a.bid.Some? && a.bid.value <= winner.bid.value
    ensures TopOf(book, IdSeq(active), winner.id)
  {
    forall id | id in IdSeq(active)
      ensures id in book && book[id].bid.Some? && book[id].bid.value <= book[winner.id].bid.value
    {
      var i :| 0 <= i < |active| && IdSeq(active)[i] == id;
      assert active[i] in active;
    }
    var t :| 0 <= t < |active| && active[t] == winner;
    assert IdSeq(active)[t] == winner.id;
  }

  /** An auction that has just been held may be added to the history. */
  lemma AuctionExplained(
    scheme: Scheme, rules: Rules, events: seq<MarketEvent>, n: nat, once: bool,
    roster: seq<Agent>, active: seq<Agent>, was: seq<Bidder>, after: Book, winner: Agent)
    requires Trail(scheme, rules, events) && JoinedBelow(events, n) && (once ==> OnceEach(events) && DistinctIds(active))
    requires Listed(BookAfter(scheme, rules, events), IdSeq(active), was) && Fit(roster, n)
    requires after == Auctioned(scheme, rules, BookAfter(scheme, rules, events), IdSeq(active), was)
    requires Entered(roster, after) && (forall a :: a in active ==> a in roster)
    requires winner in active && winner.bid.Some?
    requires forall a :: a in active ==> a.bid.Some? && a.bid.value <= winner.bid.value
    ensures Explained(roster, scheme, rules, events + [Held(IdSeq(active), was, winner.id)], n, once)
  {
    var e := Held(IdSeq(active), was, winner.id);
    WinnerTops(active, after, winner);
    TrailGrows(scheme, rules, events, e);
    JoinedBelowGrows(events, e, n);
    if once {
      DistinctNoRepeats(active);
      OnceEachGrows(events, e);
    }
    ExplainedIs(roster, scheme, rules, events + [e], n, once);
  }

  /** So may a newcomer. */
  lemma NewcomerExplained(
    scheme: Scheme, rules: Rules, events: seq<MarketEvent>, n: nat, once: bool, roster: seq<Agent>, a: Agent)
    requires Explained(roster, scheme, rules, events, n, once)
    requires a.id < n && a.id !in Ids(roster) && a.id !in BookAfter(scheme, rules, events)
    requires a.status == Novice && (a.bid.None? || a.bid == Some(0.0))
    ensures Explained(roster + [a], scheme, rules, events + [Joined(a.id, a.bid)], n, once)
  {
    var e := Joined(a.id, a.bid);
    ExplainedIs(roster, scheme, rules, events, n, once);
    TrailGrows(scheme, rules, events, e);
    JoinedBelowGrows(events, e, n);
    if once {
      OnceEachGrows(events, e);
    }
    IdHeld(roster, a.id);
    IdsOfAppend(roster, a);
    ExplainedIs(roster + [a], scheme, rules, events + [e], n, once);
  }

  /** An id not yet given out is new to the market, and may be skipped. */
  lemma NextIsNew(scheme: Scheme, rules: Rules, events: seq<MarketEvent>, n: nat, once: bool, roster: seq<Agent>)
    requires Explained(roster, scheme, rules, events, n, once)
    ensures n !in Ids(roster) && n !in BookAfter(scheme, rules, events)
    ensures Explained(roster, scheme, rules, events, n + 1, once)
  {
    ExplainedIs(roster, scheme, rules, events, n, once);
    IdHeld(roster, n);
    if n in BookAfter(scheme, rules, events) {
      BookBelow(scheme, rules, events, n, n);
    }
    JoinedBelowLater(events, n, n + 1);
    ExplainedIs(roster, scheme, rules, events, n + 1, once);
  }

  /** What a history says of those about to bid. */
  lemma BiddersExplained(
    scheme: Scheme, rules: Rules, events: seq<MarketEvent>, n: nat, once: bool, roster: seq<Agent>, active: seq<Agent>)
    requires Explained(roster, scheme, rules, events, n, once) && Members(active) <= Members(roster)
    ensures Trail(scheme, rules, events) && JoinedBelow(events, n) && (once ==> OnceEach(events)) && Fit(roster, n)
    ensures forall a :: a in active ==> a in roster
    ensures var book := BookAfter(scheme, rules, events);
            && Entered(roster, book) && Entered(active, book) && Listed(book, IdSeq(active), View(active))
            && AuctionBook(scheme, rules, book, active) == Auctioned(scheme, rules, book, IdSeq(active), View(active))
  {
    ExplainedIs(roster, scheme, rules, events, n, once);
    MembersIn(active, roster);
    EnteredListed(active, BookAfter(scheme, rules, events));
  }

  /**
   Under the fixed schemes with a positive premium: nobody is a tycoon, bids have
   grown by at most epsilon per promoting auction, and every auction that a novice
   was sure to win was won by one.
   */
  ghost predicate FairMarket(agents: seq<Agent>, scheme: Scheme, rules: Rules, events: seq<MarketEvent>)
    reads agents
  {
    Premium(scheme, rules) ==>
      && (forall a :: a in agents ==> a.status != Tycoon)
      && (rules.base >= 0.0 ==> forall a :: a in agents && a.bid.Some? ==>
            a.bid.value <= rules.base + Times(rules.epsilon, Promotions(events)))
      && (forall k: nat :: k < |events| && SureAuction(scheme, events[k]) ==> NoviceWonAt(scheme, rules, events, k))
  }

  ghost predicate NoviceWonAt(scheme: Scheme, rules: Rules, events: seq<MarketEvent>, k: nat)
    requires k < |events| && events[k].Held?
  {
    var book := BookAfter(scheme, rules, events[..k]);
    events[k].winner in book && book[events[k].winner].status == Novice
  }

  lemma MarketIsFair(
    agents: seq<Agent>, scheme: Scheme, rules: Rules, events: seq<MarketEvent>, n: nat, once: bool)
    requires Explained(agents, scheme, rules, events, n, once)
    ensures FairMarket(agents, scheme, rules, events)
  {
    ExplainedIs(agents, scheme, rules, events, n, once);
    if Premium(scheme, rules) {
      TrailSteady(scheme, rules, events);
      if rules.base >= 0.0 {
        TrailTame(scheme, rules, events);
        forall a | a in agents && a.bid.Some?
          ensures a.bid.value <= rules.base + Times(rules.epsilon, Promotions(events))
        {
          assert TameTag(rules, BookAfter(scheme, rules, events)[a.id], Promotions(events));
        }
      }
      forall k: nat | k < |events| && SureAuction(scheme, events[k])
        ensures NoviceWonAt(scheme, rules, events, k)
      {
        NoviceWins(scheme, rules, events, k);
      }
    }
  }

  /** Bids, then a winner: some agent with a highest bid, in the agents and in the history. */
  method RunAuction(
    active: seq<Agent>, choice: nat, scheme: Scheme, rules: Rules,
    ghost events: seq<MarketEvent>, ghost n: nat, ghost once: bool, ghost roster: seq<Agent>)
    returns (winner: Agent, payment: real, ghost e: MarketEvent)
    requires scheme != Unknown && active != [] && Explained(roster, scheme, rules, events, n, once)
    requires Members(active) <= Members(roster) && (once ==> DistinctIds(active))
    modifies Members(active)`bid, Members(active)`status
    ensures winner in active && winner in roster && winner.bid == Some(payment)
    ensures forall a :: a in active ==> a.bid.Some? && a.bid.value <= payment
    ensures once ==> Some(payment) == TopBid(RebidAll(scheme, rules, old(View(active))))
    ensures e == Held(IdSeq(active), old(View(active)), winner.id)
    ensures Explained(roster, scheme, rules, events + [e], n, once)
    ensures Wealth(roster) == old(Wealth(roster)) && Capability(roster) == old(Capability(roster))
  {
    ghost var was, book := View(active), BookAfter(scheme, rules, events);
    BiddersExplained(scheme, rules, events, n, once, roster, active);
    ghost var after := AuctionBook(scheme, rules, book, active);
    Reopen(active, scheme, rules, book, roster, n);
    winner, payment := SelectWinner(active, choice);
    AuctionExplained(scheme, rules, events, n, once, roster, active, was, after, winner);
    e := Held(IdSeq(active), was, winner.id);
  }
}
