/**
 The sync dispatcher: turns a consumed event into pushes to every channel.

 A push is an external effect.  It is not undone when the consumer's transaction rolls back.
 */
module Dispatcher {
  import opened Results
  import opened Inventory
  import opened OrderIngest
  import opened Canonical

  datatype Channel = Channel(id: ChannelId, safety: nat)

  datatype ListingStatus = Pending | Active | Refused

  datatype Listing = Listing(status: ListingStatus, externalId: Option<string>, syncedAt: Option<int>)

  /** One listing per channel and variant. */
  datatype Key = Key(channel: ChannelId, variant: VariantId)

  /**
   How a guarded push ends: it lands, it is skipped (breaker open, or a swallowed error), or it raises for a retry.
   */
  datatype Push =
    | Landed(listed: Option<(string, ListingStatus)>) // what `push_listing` answers; nothing for the other pushes
    | Skipped
    | Raised

  /** The listing table, and the stock each channel shows. */
  datatype Sync = Sync(listings: map<Key, Listing>, shown: map<Key, int>)

  /** The quantity a channel is told, its safety stock held back. */
  function Figure(available: int, safety: nat): nat {
    Max(Max(available, 0) - safety, 0)
  }

  // ---------------------------------------------------------------- one channel

  /** `_on_variant_added` for one channel, unless the push raises. */
  function ListOn(s: Sync, c: Channel, v: VariantId, stock: nat, push: Push, now: int): Sync {
    var key := Key(c.id, v);
    var ensured := if key in s.listings then s.listings else s.listings[key := Listing(Pending, None, None)];
    match push
    case Landed(Some((externalId, status))) =>
      Sync(ensured[key := Listing(status, Some(externalId), Some(now))], s.shown[key := Figure(stock, c.safety)])
    case _ => Sync(ensured, s.shown)
  }

  predicate Listed(s: Sync, c: Channel, v: VariantId) {
    Key(c.id, v) in s.listings && s.listings[Key(c.id, v)].status == Active
  }

  /** `_on_movement_applied` for one channel, unless the push raises. */
  function StockOn(s: Sync, c: Channel, v: VariantId, available: int, push: Push, now: int): Sync {
    var key := Key(c.id, v);
    if !Listed(s, c, v) || !push.Landed? then s
    else Sync(s.listings[key := s.listings[key].(syncedAt := Some(now))], s.shown[key := Figure(available, c.safety)])
  }

  // ---------------------------------------------------------------- all channels, in turn

  function ListAll(s: Sync, cs: seq<Channel>, v: VariantId, stock: nat, push: ChannelId -> Push, now: int): (Sync,
      bool) {
    if cs == [] then (s, false)
    else
      var (before, raised) := ListAll(s, cs[..|cs| - 1], v, stock, push, now);
      var c := cs[|cs| - 1];
      if raised then (before, true) else (ListOn(before, c, v, stock, push(c.id), now), push(c.id).Raised?)
  }

  function StockAll(s: Sync, cs: seq<Channel>, v: VariantId, available: int, push: ChannelId -> Push,
      now: int): (Sync, bool) {
    if cs == [] then (s, false)
    else
      var (before, raised) := StockAll(s, cs[..|cs| - 1], v, available, push, now);
      var c := cs[|cs| - 1];
      if raised then (before, true)
      else (StockOn(before, c, v, available, push(c.id), now), Listed(before, c, v) && push(c.id).Raised?)
  }

  class SyncDispatcher {
    var channels: seq<Channel>
    var listings: map<Key, Listing>
    var shown: map<Key, int>

    constructor (channels: seq<Channel>, s: Sync)
      ensures this.channels == channels && Contents() == s
    {
      this.channels := channels;
      listings, shown := s.listings, s.shown;
    }

    ghost function Contents(): Sync
      reads this
    {
      Sync(listings, shown)
    }

    /** An unpublished product (`None`) is not pushed. */
    method OnVariantAdded(v: VariantId, stock: Option<nat>, push: ChannelId -> Push, now: int) returns (raised: bool)
      modifies this`listings, this`shown
      ensures (Contents(), raised)
              == if stock.None? then (old(Contents()), false)
                 else ListAll(old(Contents()), channels, v, stock.value, push, now)
    {
      if stock.None? { return false; }
      raised := false;
      for i := 0 to |channels|
        invariant (Contents(), false) == ListAll(old(Contents()), channels[..i], v, stock.value, push, now)
      {
        var c := channels[i];
        var key := Key(c.id, v);
        PrefixSnoc(channels, i);
        ghost var before := Contents();
        if key !in listings { listings := listings[key := Listing(Pending, None, None)]; }
        match push(c.id) {
          case Landed(result) =>
            if result.Some? {
              shown := shown[key := Figure(stock.value, c.safety)];
              listings := listings[key := Listing(result.value.1, Some(result.value.0), Some(now))];
            }
          case Skipped =>
          case Raised =>
            RaisedPrefix(old(Contents()), channels, i + 1, v, stock.value, push, now);
            return true;
        }
        assert Contents() == ListOn(before, c, v, stock.value, push(c.id), now);
      }
      assert channels[..|channels|] == channels;
    }

    method OnMovementApplied(v: VariantId, level: Level, push: ChannelId -> Push, now: int) returns (raised: bool)
      modifies this`listings, this`shown
      ensures (Contents(), raised) == StockAll(old(Contents()), channels, v, level.Available(), push, now)
    {
      var available := Max(level.qty - level.reserved, 0);
      raised := false;
      for i := 0 to |channels|
        invariant (Contents(), false) == StockAll(old(Contents()), channels[..i], v, level.Available(), push, now)
      {
        var c := channels[i];
        var key := Key(c.id, v);
        PrefixSnoc(channels, i);
        if key in listings && listings[key].status == Active {
          match push(c.id) {
            case Landed(_) =>
              shown := shown[key := Max(available - c.safety, 0)];
              listings := listings[key := listings[key].(syncedAt := Some(now))];
            case Skipped =>
            case Raised =>
              RaisedStockPrefix(old(Contents()), channels, i + 1, v, level.Available(), push, now);
              return true;
          }
        }
      }
      assert channels[..|channels|] == channels;
    }
  }

  lemma PrefixSnoc<T>(s: seq<T>, i: nat)
    requires i < |s|
    ensures s[..i + 1][..i] == s[..i] && s[..i + 1] == s[..i] + [s[i]]
  {
  }

  /** After a raise the remaining channels are not visited. */
  lemma {:induction false} RaisedPrefix(s: Sync, cs: seq<Channel>, n: nat, v: VariantId, stock: nat,
      push: ChannelId -> Push, now: int)
    requires n <= |cs| && ListAll(s, cs[..n], v, stock, push, now).1
    ensures ListAll(s, cs, v, stock, push, now) == ListAll(s, cs[..n], v, stock, push, now)
    decreases |cs|
  {
    if n == |cs| {
      assert cs[..n] == cs;
    } else {
      assert cs[..|cs| - 1][..n] == cs[..n];
      RaisedPrefix(s, cs[..|cs| - 1], n, v, stock, push, now);
    }
  }

  lemma {:induction false} RaisedStockPrefix(s: Sync, cs: seq<Channel>, n: nat, v: VariantId, available: int,
      push: ChannelId -> Push, now: int)
    requires n <= |cs| && StockAll(s, cs[..n], v, available, push, now).1
    ensures StockAll(s, cs, v, available, push, now) == StockAll(s, cs[..n], v, available, push, now)
    decreases |cs|
  {
    if n == |cs| {
      assert cs[..n] == cs;
    } else {
      assert cs[..|cs| - 1][..n] == cs[..n];
      RaisedStockPrefix(s, cs[..|cs| - 1], n, v, available, push, now);
    }
  }

  // ---------------------------------------------------------------- what a dispatch does

  predicate DistinctChannels(cs: seq<Channel>) {
    forall i, j :: 0 <= i < j < |cs| ==> cs[i].id != cs[j].id
  }

  lemma LastIsNew(cs: seq<Channel>)
    requires DistinctChannels(cs) && cs != []
    ensures DistinctChannels(cs[..|cs| - 1])
    ensures forall c <- cs[..|cs| - 1] :: c.id != cs[|cs| - 1].id
    ensures forall c <- cs :: c in cs[..|cs| - 1] || c == cs[|cs| - 1]
  {
    assert cs == cs[..|cs| - 1] + [cs[|cs| - 1]];
  }

  /**
   A movement push reaches exactly the active listings whose push landed: those show the figure and carry the
   new time stamp; every other listing, and what its channel shows, is untouched.
   */
  lemma {:induction false} StampedExactlyWhereLanded(s: Sync, cs: seq<Channel>, v: VariantId, available: int,
      push: ChannelId -> Push, now: int)
    requires DistinctChannels(cs) && forall c <- cs :: !push(c.id).Raised?
    ensures var (s', raised) := StockAll(s, cs, v, available, push, now);
            && !raised
            && s'.listings.Keys == s.listings.Keys
            && (forall c <- cs :: Listed(s', c, v) <==> Listed(s, c, v))
            && (forall c <- cs :: Listed(s, c, v) && push(c.id).Landed? ==>
                  var key := Key(c.id, v);
                  && s'.listings[key] == s.listings[key].(syncedAt := Some(now))
                  && key in s'.shown && s'.shown[key] == Figure(available, c.safety))
            && (forall key <- s.listings ::
                  !(key.variant == v && s.listings[key].status == Active
                    && exists c <- cs :: c.id == key.channel && push(c.id).Landed?)
                  ==> s'.listings[key] == s.listings[key])
            && (forall key: Key ::
                  (key.variant == v ==>
                     forall c <- cs :: c.id == key.channel ==> !Listed(s, c, v) || !push(c.id).Landed?) ==>
                  (key in s'.shown <==> key in s.shown) && (key in s.shown ==> s'.shown[key] == s.shown[key]))
  {
    if cs != [] {
      LastIsNew(cs);
      StampedExactlyWhereLanded(s, cs[..|cs| - 1], v, available, push, now);
      var s1, c := StockAll(s, cs[..|cs| - 1], v, available, push, now).0, cs[|cs| - 1];
      assert Listed(s1, c, v) <==> Listed(s, c, v);
    }
  }

  predicate SameAt(s: Sync, s': Sync, key: Key) {
    && (key in s'.listings <==> key in s.listings) && (key in s.listings ==> s'.listings[key] == s.listings[key])
    && (key in s'.shown <==> key in s.shown) && (key in s.shown ==> s'.shown[key] == s.shown[key])
  }

  /**
   Where a listing push is answered, the channel shows the figure and the listing row the answer; elsewhere a row is
   only ensured.
   */
  predicate ListedAs(s: Sync, s': Sync, c: Channel, v: VariantId, stock: nat, push: Push, now: int) {
    var key := Key(c.id, v);
    && key in s'.listings
    && if push.Landed? && push.listed.Some? then
         && s'.listings[key] == Listing(push.listed.value.1, Some(push.listed.value.0), Some(now))
         && key in s'.shown && s'.shown[key] == Figure(stock, c.safety)
       else
         && s'.listings[key] == (if key in s.listings then s.listings[key] else Listing(Pending, None, None))
         && (key in s'.shown <==> key in s.shown) && (key in s.shown ==> s'.shown[key] == s.shown[key])
  }

  /** A listing push treats every channel as above and touches no other channel and no other variant. */
  lemma {:induction false} ListedWhereLanded(s: Sync, cs: seq<Channel>, v: VariantId, stock: nat,
      push: ChannelId -> Push, now: int)
    requires DistinctChannels(cs) && forall c <- cs :: !push(c.id).Raised?
    ensures var (s', raised) := ListAll(s, cs, v, stock, push, now);
            && !raised
            && (forall c <- cs :: ListedAs(s, s', c, v, stock, push(c.id), now))
            && (forall key: Key :: (key.variant == v ==> forall c <- cs :: c.id != key.channel) ==> SameAt(s, s', key))
  {
    if cs != [] {
      LastIsNew(cs);
      var prior, last := cs[..|cs| - 1], cs[|cs| - 1];
      ListedWhereLanded(s, prior, v, stock, push, now);
      var s1, s2 := ListAll(s, prior, v, stock, push, now).0, ListAll(s, cs, v, stock, push, now).0;
      assert SameAt(s, s1, Key(last.id, v));
      forall key: Key | key != Key(last.id, v) ensures SameAt(s1, s2, key) { }
      forall c <- prior ensures ListedAs(s, s2, c, v, stock, push(c.id), now) {
        assert ListedAs(s, s1, c, v, stock, push(c.id), now) && SameAt(s1, s2, Key(c.id, v));
      }
      assert ListedAs(s, s2, last, v, stock, push(last.id), now);
    }
  }

  // ---------------------------------------------------------------- a fan-out that raises midway

  /** The channels before the first one whose push raises. */
  function Reached(cs: seq<Channel>, raises: Channel -> bool): seq<Channel> {
    if cs == [] then []
    else
      var prior, last := cs[..|cs| - 1], cs[|cs| - 1];
      if Reached(prior, raises) == prior && !raises(last) then cs else Reached(prior, raises)
  }

  /** A movement is pushed to active listings only. */
  function StockRaises(s: Sync, v: VariantId, push: ChannelId -> Push): Channel -> bool {
    (c: Channel) => Listed(s, c, v) && push(c.id).Raised?
  }

  function ListRaises(push: ChannelId -> Push): Channel -> bool {
    (c: Channel) => push(c.id).Raised?
  }

  predicate ShownSame(s: Sync, s': Sync, key: Key) {
    (key in s'.shown <==> key in s.shown) && (key in s.shown ==> s'.shown[key] == s.shown[key])
  }

  /** What a channel shows after a push that landed there, or as before. */
  predicate ShownAs(s: Sync, s': Sync, c: Channel, v: VariantId, lands: bool, stock: int) {
    var key := Key(c.id, v);
    if lands then key in s'.shown && s'.shown[key] == Figure(stock, c.safety) else ShownSame(s, s', key)
  }

  predicate StockLands(s: Sync, cs: seq<Channel>, v: VariantId, push: ChannelId -> Push, c: Channel) {
    c in Reached(cs, StockRaises(s, v, push)) && Listed(s, c, v) && push(c.id).Landed?
  }

  predicate ListLands(cs: seq<Channel>, push: ChannelId -> Push, c: Channel) {
    c in Reached(cs, ListRaises(push)) && push(c.id).Landed? && push(c.id).listed.Some?
  }

  lemma {:induction false} ReachedAreChannels(cs: seq<Channel>, raises: Channel -> bool)
    ensures Reached(cs, raises) <= cs
  {
    if cs != [] { ReachedAreChannels(cs[..|cs| - 1], raises); }
  }

  /** Whatever its pushes do, a movement's fan-out shows its figure exactly where a push landed before one raised. */
  lemma {:induction false} StockShownWhereLanded(s: Sync, cs: seq<Channel>, v: VariantId, available: int,
      push: ChannelId -> Push, now: int)
    requires DistinctChannels(cs)
    ensures var (s', raised) := StockAll(s, cs, v, available, push, now);
            && (raised <==> Reached(cs, StockRaises(s, v, push)) != cs)
            && (forall c: Channel :: Listed(s', c, v) <==> Listed(s, c, v))
            && (forall c <- cs :: ShownAs(s, s', c, v, StockLands(s, cs, v, push, c), available))
            && (forall key: Key :: (key.variant == v ==> forall c <- cs :: c.id != key.channel) ==>
                ShownSame(s, s', key))
  {
    if cs != [] {
      LastIsNew(cs);
      var prior, last := cs[..|cs| - 1], cs[|cs| - 1];
      StockShownWhereLanded(s, prior, v, available, push, now);
      ReachedAreChannels(prior, StockRaises(s, v, push));
      var (s1, raised) := StockAll(s, prior, v, available, push, now);
      var s2 := StockAll(s, cs, v, available, push, now).0;
      assert Listed(s1, last, v) <==> Listed(s, last, v);
      forall key: Key | key != Key(last.id, v) ensures ShownSame(s1, s2, key) { }
      assert ShownSame(s, s1, Key(last.id, v));
      forall c <- prior ensures ShownAs(s, s2, c, v, StockLands(s, cs, v, push, c), available) {
        assert ShownAs(s, s1, c, v, StockLands(s, prior, v, push, c), available) && c != last;
        assert ShownSame(s1, s2, Key(c.id, v));
      }
    }
  }

  /**
   Whatever its pushes do, a listing's fan-out shows its figure exactly where a push was answered before one raised.
   */
  lemma {:induction false} ListShownWhereLanded(s: Sync, cs: seq<Channel>, v: VariantId, stock: nat,
      push: ChannelId -> Push, now: int)
    requires DistinctChannels(cs)
    ensures var (s', raised) := ListAll(s, cs, v, stock, push, now);
            && (raised <==> Reached(cs, ListRaises(push)) != cs)
            && (forall c <- cs :: ShownAs(s, s', c, v, ListLands(cs, push, c), stock))
            && (forall key: Key :: (key.variant == v ==> forall c <- cs :: c.id != key.channel) ==>
                ShownSame(s, s', key))
  {
    if cs != [] {
      LastIsNew(cs);
      var prior, last := cs[..|cs| - 1], cs[|cs| - 1];
      ListShownWhereLanded(s, prior, v, stock, push, now);
      ReachedAreChannels(prior, ListRaises(push));
      var s1, s2 := ListAll(s, prior, v, stock, push, now).0, ListAll(s, cs, v, stock, push, now).0;
      forall key: Key | key != Key(last.id, v) ensures ShownSame(s1, s2, key) { }
      assert ShownSame(s, s1, Key(last.id, v));
      forall c <- prior ensures ShownAs(s, s2, c, v, ListLands(cs, push, c), stock) {
        assert ShownAs(s, s1, c, v, ListLands(prior, push, c), stock) && c != last;
        assert ShownSame(s1, s2, Key(c.id, v));
      }
    }
  }

  /** Where a listing push raises, the row has been ensured by then and nothing is shown. */
  predicate EnsuredOnly(s: Sync, s': Sync, c: Channel, v: VariantId) {
    var key := Key(c.id, v);
    && key in s'.listings && ShownSame(s, s', key)
    && s'.listings[key] == if key in s.listings then s.listings[key] else Listing(Pending, None, None)
  }

  /** The row of channel i after a listing's fan-out: visited, the one that raised, or never reached. */
  predicate RowAfterListing(s: Sync, s': Sync, cs: seq<Channel>, i: nat, v: VariantId, stock: nat,
      push: ChannelId -> Push, now: int)
    requires i < |cs|
  {
    var reached := |Reached(cs, ListRaises(push))|;
    if i < reached then ListedAs(s, s', cs[i], v, stock, push(cs[i].id), now)
    else if i == reached then EnsuredOnly(s, s', cs[i], v)
    else SameAt(s, s', Key(cs[i].id, v))
  }

  lemma ListOnRow(s: Sync, c: Channel, v: VariantId, stock: nat, push: Push, now: int)
    ensures var s' := ListOn(s, c, v, stock, push, now);
            && (if push.Raised? then EnsuredOnly(s, s', c, v) else ListedAs(s, s', c, v, stock, push, now))
            && (forall key: Key :: key != Key(c.id, v) ==> SameAt(s, s', key))
  {
  }

  lemma LastRowAfterListing(s: Sync, s1: Sync, s2: Sync, c: Channel, v: VariantId, stock: nat, push: Push, now: int)
    requires SameAt(s, s1, Key(c.id, v))
    ensures ListedAs(s1, s2, c, v, stock, push, now) ==> ListedAs(s, s2, c, v, stock, push, now)
    ensures EnsuredOnly(s1, s2, c, v) ==> EnsuredOnly(s, s2, c, v)
  {
  }

  lemma EarlierRowAfterListing(s: Sync, s1: Sync, s2: Sync, c: Channel, v: VariantId, stock: nat, push: Push, now: int)
    requires SameAt(s1, s2, Key(c.id, v))
    ensures ListedAs(s, s1, c, v, stock, push, now) ==> ListedAs(s, s2, c, v, stock, push, now)
    ensures EnsuredOnly(s, s1, c, v) ==> EnsuredOnly(s, s2, c, v)
    ensures SameAt(s, s1, Key(c.id, v)) ==> SameAt(s, s2, Key(c.id, v))
  {
  }

  /** Whatever its pushes do, a listing's fan-out leaves these rows, and every other key as it was. */
  lemma {:induction false} RowsAfterListing(s: Sync, cs: seq<Channel>, v: VariantId, stock: nat,
      push: ChannelId -> Push, now: int)
    requires DistinctChannels(cs)
    ensures var s' := ListAll(s, cs, v, stock, push, now).0;
            && (forall i :: 0 <= i < |cs| ==> RowAfterListing(s, s', cs, i, v, stock, push, now))
            && (forall key: Key :: (key.variant == v ==> forall c <- cs :: c.id != key.channel) ==> SameAt(s, s', key))
  {
    if cs != [] {
      LastIsNew(cs);
      var n, prior := |cs| - 1, cs[..|cs| - 1];
      RowsAfterListing(s, prior, v, stock, push, now);
      ListShownWhereLanded(s, prior, v, stock, push, now);
      ReachedAreChannels(prior, ListRaises(push));
      var (s1, raised) := ListAll(s, prior, v, stock, push, now);
      var s2 := ListAll(s, cs, v, stock, push, now).0;
      assert SameAt(s, s1, Key(cs[n].id, v));
      ListOnRow(s1, cs[n], v, stock, push(cs[n].id), now);
      LastRowAfterListing(s, s1, s2, cs[n], v, stock, push(cs[n].id), now);
      forall i | 0 <= i < n ensures RowAfterListing(s, s2, cs, i, v, stock, push, now) {
        assert RowAfterListing(s, s1, prior, i, v, stock, push, now) && prior[i] == cs[i];
        EarlierRowAfterListing(s, s1, s2, cs[i], v, stock, push(cs[i].id), now);
        ReachedMore(cs, ListRaises(push));
      }
      ReachedMore(cs, ListRaises(push));
      assert RowAfterListing(s, s2, cs, n, v, stock, push, now);
    }
  }

  /** One more channel is reached exactly when all before it were and it does not raise. */
  lemma ReachedMore(cs: seq<Channel>, raises: Channel -> bool)
    requires cs != []
    ensures var n := |cs| - 1;
            |Reached(cs, raises)|
            == |Reached(cs[..n], raises)| + if |Reached(cs[..n], raises)| == n && !raises(cs[n]) then 1 else 0
  {
    ReachedAreChannels(cs[..|cs| - 1], raises);
  }

  /** An active listing's channel shows something. */
  ghost predicate ActiveShown(listings: map<Key, Listing>, shown: map<Key, int>) {
    forall key <- listings :: listings[key].status == Active ==> key in shown
  }

  lemma {:induction false} StockKeepsActiveShown(s: Sync, cs: seq<Channel>, v: VariantId, available: int,
      push: ChannelId -> Push, now: int)
    requires ActiveShown(s.listings, s.shown)
    ensures var s' := StockAll(s, cs, v, available, push, now).0;
            ActiveShown(s'.listings, s'.shown) && s.shown.Keys <= s'.shown.Keys
  {
    if cs != [] { StockKeepsActiveShown(s, cs[..|cs| - 1], v, available, push, now); }
  }

  lemma {:induction false} ListKeepsActiveShown(s: Sync, cs: seq<Channel>, v: VariantId, stock: nat,
      push: ChannelId -> Push, now: int)
    requires ActiveShown(s.listings, s.shown)
    ensures var s' := ListAll(s, cs, v, stock, push, now).0;
            ActiveShown(s'.listings, s'.shown) && s.shown.Keys <= s'.shown.Keys
  {
    if cs != [] { ListKeepsActiveShown(s, cs[..|cs| - 1], v, stock, push, now); }
  }

  // ---------------------------------------------------------------- one warehouse's level against the aggregate

  function Without(ws: seq<WarehouseId>, w: WarehouseId): seq<WarehouseId> {
    if ws == [] then [] else (if ws[0] == w then [] else [ws[0]]) + Without(ws[1..], w)
  }

  lemma {:induction false} TotalWithout(levels: map<Row, Level>, v: VariantId, ws: seq<WarehouseId>, w: WarehouseId)
    requires Distinct(ws)
    ensures TotalAvail(levels, v, ws)
            == TotalAvail(levels, v, Without(ws, w)) + if w in ws then Avail(levels, v, w) else 0
  {
    if ws != [] {
      assert ws == [ws[0]] + ws[1..];
      TotalWithout(levels, v, ws[1..], w);
      var rest := Without(ws[1..], w);
      if ws[0] == w {
        assert Without(ws, w) == rest;
      } else {
        assert Without(ws, w) == [ws[0]] + rest && Without(ws, w)[1..] == rest;
      }
    }
  }

  /** What the online warehouses other than the row's own offer of its variant. */
  function Elsewhere(cat: Catalog, levels: map<Row, Level>, row: Row): int {
    TotalAvail(levels, row.variant, Without(Online(cat.warehouses), row.warehouse))
  }

  lemma HubStockSplits(cat: Catalog, levels: map<Row, Level>, row: Row)
    requires cat.Valid() && AllSound(levels) && row in levels
    ensures HubStock(cat, levels, row.variant)
            == Elsewhere(cat, levels, row)
              + if row.warehouse in Online(cat.warehouses) then levels[row].Available() else 0
    ensures Elsewhere(cat, levels, row) >= 0
  {
    OnlineFacts(cat.warehouses);
    OfferedIsReservable(cat, levels, row.variant);
    TotalWithout(levels, row.variant, Online(cat.warehouses), row.warehouse);
    TotalAvailNonNegative(levels, row.variant, Without(Online(cat.warehouses), row.warehouse));
  }

  /**
   A movement event carries its own warehouse's level, whether that warehouse is online or not, while the hub
   offers the sum over the online ones.  The two figures agree exactly when the two stocks are the same or both
   stay within the safety stock: in an online warehouse, when the others offer nothing or the whole offer stays
   within it; in an offline one, when the online ones happen to offer the same or both stay within it.
   */
  lemma MovementFigureAgreesExactlyWhen(cat: Catalog, levels: map<Row, Level>, row: Row, safety: nat)
    requires cat.Valid() && AllSound(levels) && row in levels
    ensures var own, others := levels[row].Available(), Elsewhere(cat, levels, row);
            Figure(own, safety) == Figure(HubStock(cat, levels, row.variant), safety)
            <==> if row.warehouse in Online(cat.warehouses) then others == 0 || own + others <= safety
                 else own == others || (own <= safety && others <= safety)
  {
    HubStockSplits(cat, levels, row);
  }

  /** So a landed movement push leaves an active listing at the aggregated figure exactly under that condition. */
  lemma MovementPushShowsTheOfferExactlyWhen(cat: Catalog, levels: map<Row, Level>, row: Row, s: Sync, cs: seq<Channel>,
      c: Channel, push: ChannelId -> Push, now: int)
    requires cat.Valid() && AllSound(levels) && row in levels
    requires DistinctChannels(cs) && (forall k <- cs :: !push(k.id).Raised?)
    requires c in cs && Listed(s, c, row.variant) && push(c.id).Landed?
    ensures var own, others, key := levels[row].Available(), Elsewhere(cat, levels, row), Key(c.id, row.variant);
            var s' := StockAll(s, cs, row.variant, own, push, now).0;
            && key in s'.shown
            && (s'.shown[key] == Figure(HubStock(cat, levels, row.variant), c.safety)
                <==> if row.warehouse in Online(cat.warehouses) then others == 0 || own + others <= c.safety
                     else own == others || (own <= c.safety && others <= c.safety))
  {
    StampedExactlyWhereLanded(s, cs, row.variant, levels[row].Available(), push, now);
    MovementFigureAgreesExactlyWhen(cat, levels, row, c.safety);
  }

  /** Five units in an offline warehouse: the event tells the channels of five, the hub offers none. */
  lemma OfflineMovementOverstates()
    ensures var cat, row := Catalog(map[], {}, [Warehouse(7, false)]), Row(0, 7);
            var levels := map[row := Level(5, 0, 1)];
            Figure(levels[row].Available(), 0) == 5 && Figure(HubStock(cat, levels, 0), 0) == 0
  {
    var cat, row := Catalog(map[], {}, [Warehouse(7, false)]), Row(0, 7);
    var levels := map[row := Level(5, 0, 1)];
    assert Online(cat.warehouses) == [];
    assert cat.Valid();
    OfferedIsReservable(cat, levels, 0);
  }

  /**
   Five and three units in two online warehouses: the event of one tells the channels of five, the hub offers eight.
   */
  lemma SecondWarehouseIsForgotten()
    ensures var cat, row := Catalog(map[], {}, [Warehouse(1, true), Warehouse(2, true)]), Row(0, 1);
            var levels := map[row := Level(5, 0, 1), Row(0, 2) := Level(3, 0, 1)];
            Figure(levels[row].Available(), 0) == 5 && Figure(HubStock(cat, levels, 0), 0) == 8
  {
    var cat, row := Catalog(map[], {}, [Warehouse(1, true), Warehouse(2, true)]), Row(0, 1);
    var levels := map[row := Level(5, 0, 1), Row(0, 2) := Level(3, 0, 1)];
    assert cat.warehouses[1..] == [Warehouse(2, true)];
    assert Online(cat.warehouses[1..]) == [2];
    assert Online(cat.warehouses) == [1, 2];
    assert cat.Valid();
    OfferedIsReservable(cat, levels, 0);
    assert [1, 2][1..] == [2];
    assert TotalAvail(levels, 0, [2]) == 3;
  }
}
