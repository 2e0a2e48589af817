/** The subagents a session shows, kept from updates of which some may be lost. */
module SubagentRoster {
  import opened Common

  const MAX_SUBAGENTS: nat := 16
  const MAX_LAUNCHES: nat := 8

  datatype Key = Key(digest: string)
  datatype Child = Child(key: Key, agentType: Option<string>, description: Option<string>, activity: Option<string>,
                         started: nat)
  datatype Launch = Launch(agentType: Option<string>, description: Option<string>)
  datatype Listing = Listing(key: Key, agentType: Option<string>, description: Option<string>)

  datatype Update =
    | Launching(launch: Launch)
    | Started(key: Key, agentType: Option<string>)
    | Active(key: Key, agentType: Option<string>, activity: Option<string>)
    | Described(key: Key, description: string)
    | Stopped(key: Key)
    | Inventory(listings: seq<Listing>)

  /** The position of a key, or the length. */
  function Find(children: seq<Child>, key: Key): (i: nat)
    ensures i <= |children| && (i < |children| ==> children[i].key == key)
    ensures i == |children| ==> forall k :: 0 <= k < |children| ==> children[k].key != key
  {
    if children == [] then 0
    else if children[0].key == key then 0
    else
      var i := 1 + Find(children[1..], key);
      assert forall k :: 0 < k < |children| ==> children[k] == children[1..][k - 1];
      i
  }

  predicate Has(children: seq<Child>, key: Key) { Find(children, key) < |children| }

  function Insert(children: seq<Child>, child: Child): seq<Child> {
    if |children| < MAX_SUBAGENTS then children + [child] else children
  }

  ghost predicate Distinct(children: seq<Child>) {
    forall i, j :: 0 <= i < j < |children| ==> children[i].key != children[j].key
  }

  ghost predicate Valid(children: seq<Child>) { Distinct(children) && |children| <= MAX_SUBAGENTS }

  ghost function Keys(children: seq<Child>): set<Key> { set i | 0 <= i < |children| :: children[i].key }

  // ----- updates, as functions -----

  function FirstOf(x: Option<string>, y: Option<string>): Option<string> { if x.Some? then x else y }

  /** The launch a starting child takes its description from: the first of its type, or else the first. */
  function LaunchIndex(launches: seq<Launch>, agentType: Option<string>): (i: nat)
    ensures i <= |launches|
  {
    if launches == [] then 0
    else if launches[0].agentType == agentType then 0
    else
      var i := LaunchIndex(launches[1..], agentType);
      if i == |launches| - 1 then |launches| else i + 1
  }

  function Chosen(launches: seq<Launch>, agentType: Option<string>): nat {
    var i := LaunchIndex(launches, agentType); if i < |launches| then i else 0
  }

  /** The description a starting child takes, and the launches left for others. */
  function TakeLaunch(launches: seq<Launch>, agentType: Option<string>): (r: (Option<string>, seq<Launch>))
    ensures |r.1| <= |launches|
  {
    if launches == [] then (None, [])
    else
      var i := Chosen(launches, agentType);
      (launches[i].description, launches[..i] + launches[i + 1..])
  }

  /** An unknown child is added if there is room, and uses up a launch in any case. */
  function Added(children: seq<Child>, launches: seq<Launch>, key: Key, agentType: Option<string>, now: nat)
    : (seq<Child>, seq<Launch>)
  {
    if Has(children, key) then (children, launches)
    else
      var (description, rest) := TakeLaunch(launches, agentType);
      (Insert(children, Child(key, agentType, description, None, now)), rest)
  }

  function Acted(children: seq<Child>, key: Key, agentType: Option<string>, activity: Option<string>): seq<Child> {
    var i := Find(children, key);
    if i == |children| then children
    else children[i := children[i].(agentType := FirstOf(children[i].agentType, agentType),
                                    activity := FirstOf(activity, children[i].activity))]
  }

  function DescribedAs(children: seq<Child>, key: Key, description: string): seq<Child> {
    var i := Find(children, key);
    if i == |children| then children else children[i := children[i].(description := Some(description))]
  }

  function Without(children: seq<Child>, key: Key): seq<Child> {
    var i := Find(children, key);
    if i < |children| then children[..i] + children[i + 1..] else children
  }

  function Launched(launches: seq<Launch>, launch: Launch): seq<Launch> {
    (if |launches| == MAX_LAUNCHES then launches[1..] else launches) + [launch]
  }

  /** `apply`. */
  function Applied(children: seq<Child>, launches: seq<Launch>, update: Update, now: nat): (seq<Child>, seq<Launch>) {
    match update
    case Launching(launch) => (children, Launched(launches, launch))
    case Started(key, agentType) => Added(children, launches, key, agentType, now)
    case Active(key, agentType, activity) =>
      var (cs, ls) := Added(children, launches, key, None, now);
      (Acted(cs, key, agentType, activity), ls)
    case Described(key, description) =>
      var (cs, ls) := Added(children, launches, key, None, now);
      (DescribedAs(cs, key, description), ls)
    case Stopped(key) => (Without(children, key), launches)
    case Inventory(listings) => (AfterInventory(children, listings, now), [])
  }

  predicate Listed(listings: seq<Listing>, key: Key) {
    listings != [] && (listings[0].key == key || Listed(listings[1..], key))
  }

  function Retained(children: seq<Child>, listings: seq<Listing>): seq<Child> {
    if children == [] then []
    else (if Listed(listings, children[0].key) then [children[0]] else []) + Retained(children[1..], listings)
  }

  /** A listed child is completed, or added if there is room. */
  function MergeOne(children: seq<Child>, listing: Listing, now: nat): seq<Child> {
    var i := Find(children, listing.key);
    if i < |children| then
      children[i := children[i].(agentType := FirstOf(children[i].agentType, listing.agentType),
                                 description := FirstOf(children[i].description, listing.description))]
    else Insert(children, Child(listing.key, listing.agentType, listing.description, None, now))
  }

  function MergeAll(children: seq<Child>, listings: seq<Listing>, n: nat, now: nat): seq<Child>
    requires n <= |listings|
  {
    if n == 0 then children else MergeOne(MergeAll(children, listings, n - 1, now), listings[n - 1], now)
  }

  function AfterInventory(children: seq<Child>, listings: seq<Listing>, now: nat): seq<Child> {
    MergeAll(Retained(children, listings), listings, |listings|, now)
  }

  // ----- laws of one update -----

  lemma InsertIsValid(children: seq<Child>, child: Child)
    requires Valid(children) && !Has(children, child.key)
    ensures Valid(Insert(children, child))
    ensures Keys(Insert(children, child))
            == if |children| < MAX_SUBAGENTS then Keys(children) + {child.key} else Keys(children)
  {
    var r := Insert(children, child);
    if |children| < MAX_SUBAGENTS {
      assert forall i :: 0 <= i < |children| ==> r[i] == children[i];
      assert r[|children|] == child;
    }
  }

  lemma SameKeys(children: seq<Child>, others: seq<Child>)
    requires |others| == |children| && forall i :: 0 <= i < |children| ==> others[i].key == children[i].key
    ensures Keys(others) == Keys(children) && (Distinct(children) ==> Distinct(others))
  {
  }

  lemma {:induction false} FindSame(children: seq<Child>, others: seq<Child>, key: Key)
    requires |others| == |children| && forall i :: 0 <= i < |children| ==> others[i].key == children[i].key
    ensures Find(others, key) == Find(children, key)
  {
    if children != [] { FindSame(children[1..], others[1..], key); }
  }

  lemma {:induction false} ListedIs(listings: seq<Listing>, key: Key)
    ensures Listed(listings, key) <==> exists i :: 0 <= i < |listings| && listings[i].key == key
  {
    if listings != [] {
      ListedIs(listings[1..], key);
      if i: nat :| i < |listings| && listings[i].key == key { assert i == 0 || listings[1..][i - 1].key == key; }
      if i: nat :| i < |listings[1..]| && listings[1..][i].key == key { assert listings[i + 1].key == key; }
    }
  }

  ghost function ListedKeys(listings: seq<Listing>): set<Key> { set i | 0 <= i < |listings| :: listings[i].key }

  /** What is retained are the listed children, in their order. */
  lemma {:induction false} RetainedIsListed(children: seq<Child>, listings: seq<Listing>)
    requires Distinct(children)
    ensures Distinct(Retained(children, listings)) && |Retained(children, listings)| <= |children|
    ensures Keys(Retained(children, listings)) == Keys(children) * ListedKeys(listings)
  {
    if children != [] {
      var c, rest := children[0], children[1..];
      RetainedIsListed(rest, listings);
      assert children == [c] + rest;
      assert [] + Retained(rest, listings) == Retained(rest, listings);
      RetainedNext(c, rest, Retained(rest, listings), listings);
    }
  }

  lemma HeadIsApart(c: Child, rest: seq<Child>)
    requires Distinct([c] + rest)
    ensures c.key !in Keys(rest)
  {
    var all := [c] + rest;
    assert all[0] == c && forall i :: 0 <= i < |rest| ==> all[i + 1] == rest[i];
  }

  lemma RetainedNext(c: Child, rest: seq<Child>, tail: seq<Child>, listings: seq<Listing>)
    requires Distinct([c] + rest) && Distinct(tail) && Keys(tail) == Keys(rest) * ListedKeys(listings)
    ensures Distinct([c] + tail)
    ensures Keys([c] + rest) * ListedKeys(listings) == if Listed(listings, c.key) then Keys([c] + tail) else Keys(tail)
  {
    HeadIsApart(c, rest);
    DistinctCons(c, tail);
    ListedIs(listings, c.key);
    KeysCons(c, rest);
    KeysCons(c, tail);
    RetainedSets(c.key, Keys(rest), Keys(tail), ListedKeys(listings));
  }

  lemma RetainedSets(key: Key, rest: set<Key>, tail: set<Key>, listed: set<Key>)
    requires tail == rest * listed
    ensures ({key} + rest) * listed == if key in listed then {key} + tail else tail
  {
  }

  lemma FindBehind(c: Child, rest: seq<Child>, key: Key)
    requires c.key != key
    ensures Find([c] + rest, key) == 1 + Find(rest, key)
  {
    assert ([c] + rest)[1..] == rest;
  }

  /** The i-th child retained is the child of its key, and stands behind those retained before it. */
  ghost predicate InOrder(kept: seq<Child>, children: seq<Child>, i: nat)
    requires i < |kept|
  {
    var at := Find(children, kept[i].key);
    at < |children| && kept[i] == children[at] && (i > 0 ==> Find(children, kept[i - 1].key) < at)
  }

  lemma FindHead(c: Child, rest: seq<Child>)
    ensures Find([c] + rest, c.key) == 0
  {
  }

  lemma OrderNext(c: Child, rest: seq<Child>, tail: seq<Child>, i: nat)
    requires c.key !in Keys(rest) && i < |tail| && InOrder(tail, rest, i) && (i > 0 ==> InOrder(tail, rest, i - 1))
    ensures InOrder(tail, [c] + rest, i) && InOrder([c] + tail, [c] + rest, i + 1)
  {
    FindHead(c, rest);
    assert tail[i].key in Keys(rest);
    FindBehind(c, rest, tail[i].key);
    if i > 0 {
      assert tail[i - 1].key in Keys(rest);
      FindBehind(c, rest, tail[i - 1].key);
      assert ([c] + tail)[i] == tail[i - 1];
    }
    assert ([c] + tail)[i + 1] == tail[i];
  }

  lemma {:induction false} RetainedInOrder(children: seq<Child>, listings: seq<Listing>, i: nat)
    requires Distinct(children) && i < |Retained(children, listings)|
    ensures InOrder(Retained(children, listings), children, i)
    decreases |children|, i
  {
    var c, rest := children[0], children[1..];
    var tail := Retained(rest, listings);
    assert children == [c] + rest && [] + tail == tail;
    HeadIsApart(c, rest);
    var k := if Listed(listings, c.key) then i - 1 else i;
    if k < 0 {
      FindHead(c, rest);
    } else {
      RetainedInOrder(rest, listings, k);
      if k > 0 { RetainedInOrder(rest, listings, k - 1); }
      OrderNext(c, rest, tail, k);
    }
  }

  lemma KeysCons(c: Child, rest: seq<Child>)
    ensures Keys([c] + rest) == {c.key} + Keys(rest)
  {
    var all := [c] + rest;
    assert all[0] == c && forall i :: 0 < i < |all| ==> all[i] == rest[i - 1];
    forall k ensures k in Keys(all) <==> k in {c.key} + Keys(rest) {
      if k in Keys(rest) {
        var i :| 0 <= i < |rest| && rest[i].key == k;
        assert all[i + 1].key == k;
      }
    }
  }

  lemma DistinctCons(c: Child, tail: seq<Child>)
    requires Distinct(tail)
    ensures c.key !in Keys(tail) ==> Distinct([c] + tail)
  {
    var all := [c] + tail;
    assert forall i :: 0 < i < |all| ==> all[i] == tail[i - 1];
    if c.key !in Keys(tail) { assert forall i :: 0 <= i < |tail| ==> tail[i].key in Keys(tail); }
  }

  lemma {:induction false} DistinctCounts(children: seq<Child>)
    requires Distinct(children)
    ensures |Keys(children)| == |children|
  {
    if children != [] {
      var c, rest := children[0], children[1..];
      assert Distinct(rest);
      DistinctCounts(rest);
      KeysCons(c, rest);
      assert children == [c] + rest;
      assert c.key !in Keys(rest);
    }
  }

  lemma SubsetCounts(a: set<Key>, b: set<Key>)
    requires a <= b
    ensures |a| <= |b|
  {
    assert b == a + (b - a);
  }

  /** One more listed child is completed or, there being room for all that are listed, added. */
  lemma MergeOneIs(children: seq<Child>, listing: Listing, now: nat)
    requires Valid(children)
    ensures Valid(MergeOne(children, listing, now))
    ensures Keys(MergeOne(children, listing, now))
            == if Has(children, listing.key) || |children| < MAX_SUBAGENTS then Keys(children) + {listing.key}
               else Keys(children)
    ensures Extends(children, MergeOne(children, listing, now))
  {
    var i := Find(children, listing.key);
    if i < |children| {
      SameKeys(children, MergeOne(children, listing, now));
      assert children[i].key in Keys(children);
    } else {
      InsertIsValid(children, Child(listing.key, listing.agentType, listing.description, None, now));
    }
  }

  /** `later` has the same children in the same places, with the times they started, and maybe more behind them. */
  ghost predicate Extends(children: seq<Child>, later: seq<Child>) {
    |children| <= |later|
    && forall i :: 0 <= i < |children| ==> later[i].key == children[i].key && later[i].started == children[i].started
  }

  ghost function FirstKeys(listings: seq<Listing>, n: nat): set<Key>
    requires n <= |listings|
  {
    if n == 0 then {} else FirstKeys(listings, n - 1) + {listings[n - 1].key}
  }

  lemma {:induction false} MergeAllIsValid(children: seq<Child>, listings: seq<Listing>, n: nat, now: nat)
    requires Valid(children) && n <= |listings|
    ensures Valid(MergeAll(children, listings, n, now)) && Extends(children, MergeAll(children, listings, n, now))
    ensures Keys(MergeAll(children, listings, n, now)) <= Keys(children) + FirstKeys(listings, n)
  {
    if n > 0 {
      MergeAllIsValid(children, listings, n - 1, now);
      MergeOneIs(MergeAll(children, listings, n - 1, now), listings[n - 1], now);
    }
  }

  lemma {:induction false} MergeAllKeys(children: seq<Child>, listings: seq<Listing>, n: nat, now: nat)
    requires Valid(children) && n <= |listings| && Keys(children) <= ListedKeys(listings)
    requires |ListedKeys(listings)| <= MAX_SUBAGENTS
    ensures Keys(MergeAll(children, listings, n, now)) == Keys(children) + FirstKeys(listings, n)
  {
    if n > 0 {
      MergeAllKeys(children, listings, n - 1, now);
      MergeAllIsValid(children, listings, n - 1, now);
      FirstKeysAre(listings, n - 1);
      MergeKeysNext(MergeAll(children, listings, n - 1, now), listings, n - 1, now, Keys(children),
                    FirstKeys(listings, n - 1), MergeAll(children, listings, n, now));
    }
  }

  lemma MergeKeysNext(before: seq<Child>, listings: seq<Listing>, i: nat, now: nat, had: set<Key>, first: set<Key>,
                      after: seq<Child>)
    requires Valid(before) && i < |listings| && |ListedKeys(listings)| <= MAX_SUBAGENTS
    requires had <= ListedKeys(listings) && first <= ListedKeys(listings) && Keys(before) == had + first
    requires after == MergeOne(before, listings[i], now)
    ensures Keys(after) == had + (first + {listings[i].key})
  {
    MergeOneKeys(before, listings, i, now, after);
  }

  lemma {:induction false} FirstKeysAre(listings: seq<Listing>, n: nat)
    requires n <= |listings|
    ensures forall i :: 0 <= i < n ==> listings[i].key in FirstKeys(listings, n)
    ensures FirstKeys(listings, n) <= ListedKeys(listings)
  {
    if n > 0 { FirstKeysAre(listings, n - 1); }
  }

  lemma MergeOneKeys(children: seq<Child>, listings: seq<Listing>, i: nat, now: nat, after: seq<Child>)
    requires Valid(children) && i < |listings| && Keys(children) <= ListedKeys(listings)
    requires |ListedKeys(listings)| <= MAX_SUBAGENTS && after == MergeOne(children, listings[i], now)
    ensures Keys(after) == Keys(children) + {listings[i].key}
  {
    MergeOneIs(children, listings[i], now);
    if !Has(children, listings[i].key) { RoomForListed(children, listings, i); }
  }

  /** A listed key that is missing leaves room for itself. */
  lemma RoomForListed(children: seq<Child>, listings: seq<Listing>, i: nat)
    requires Valid(children) && i < |listings| && Keys(children) <= ListedKeys(listings)
    requires |ListedKeys(listings)| <= MAX_SUBAGENTS && !Has(children, listings[i].key)
    ensures |children| < MAX_SUBAGENTS
  {
    DistinctCounts(children);
    assert listings[i].key !in Keys(children) && listings[i].key in ListedKeys(listings);
    SubsetCounts(Keys(children) + {listings[i].key}, ListedKeys(listings));
  }

  /**
  After an inventory the roster shows exactly the listed children, whatever it
  showed before, if and only if no more are listed than fit. Those it showed
  before keep their order and the time they started.
   */
  lemma InventoryIsShown(children: seq<Child>, listings: seq<Listing>, now: nat)
    requires Valid(children)
    ensures var after := AfterInventory(children, listings, now);
            && Valid(after) && Extends(Retained(children, listings), after)
            && (forall i :: 0 <= i < |Retained(children, listings)| ==>
                  InOrder(Retained(children, listings), children, i))
            && (Keys(after) == ListedKeys(listings) <==> |ListedKeys(listings)| <= MAX_SUBAGENTS)
  {
    var kept := Retained(children, listings);
    RetainedIsListed(children, listings);
    forall i | 0 <= i < |kept| ensures InOrder(kept, children, i) { RetainedInOrder(children, listings, i); }
    MergeAllIsValid(kept, listings, |listings|, now);
    FirstKeysAre(listings, |listings|);
    assert FirstKeys(listings, |listings|) == ListedKeys(listings);
    if |ListedKeys(listings)| <= MAX_SUBAGENTS { MergeAllKeys(kept, listings, |listings|, now); }
    else { DistinctCounts(AfterInventory(children, listings, now)); }
  }

  lemma RemoveAt(children: seq<Child>, i: nat)
    requires Valid(children) && i < |children|
    ensures var r := children[..i] + children[i + 1..];
            Valid(r) && Keys(r) == Keys(children) - {children[i].key}
  {
    var r := children[..i] + children[i + 1..];
    assert forall k :: 0 <= k < |r| ==> r[k] == children[if k < i then k else k + 1];
    forall key | key in Keys(children) - {children[i].key} ensures key in Keys(r) {
      var k :| 0 <= k < |children| && children[k].key == key;
      assert r[if k < i then k else k - 1].key == key;
    }
  }

  // ----- runs -----

  /** Apart from a stop or an inventory no child is lost, moved or restarted; a stop drops exactly its own. */
  lemma AppliedKeeps(children: seq<Child>, launches: seq<Launch>, update: Update, now: nat)
    requires Valid(children) && |launches| <= MAX_LAUNCHES
    ensures var (cs, ls) := Applied(children, launches, update, now);
            && Valid(cs) && |ls| <= MAX_LAUNCHES
            && (!update.Stopped? && !update.Inventory? ==> Extends(children, cs))
            && (update.Stopped? ==> Keys(cs) == Keys(children) - {update.key})
  {
    if update.Inventory? { InventoryIsShown(children, update.listings, now); }
    else if update.Stopped? { WithoutDrops(children, update.key); }
    else if !update.Launching? {
      AddedKeeps(children, launches, update.key, if update.Started? then update.agentType else None, now);
    }
    if update.Active? || update.Described? {
      var cs := Added(children, launches, update.key, None, now).0;
      SameKeys(cs, Applied(children, launches, update, now).0);
    }
  }

  lemma WithoutDrops(children: seq<Child>, key: Key)
    requires Valid(children)
    ensures Valid(Without(children, key)) && Keys(Without(children, key)) == Keys(children) - {key}
  {
    var i := Find(children, key);
    if i < |children| { RemoveAt(children, i); }
  }

  lemma AddedKeeps(children: seq<Child>, launches: seq<Launch>, key: Key, agentType: Option<string>, now: nat)
    requires Valid(children)
    ensures var (cs, ls) := Added(children, launches, key, agentType, now);
            Valid(cs) && |ls| <= |launches| && Extends(children, cs)
  {
    if !Has(children, key) {
      InsertIsValid(children, Child(key, agentType, TakeLaunch(launches, agentType).0, None, now));
    }
  }

  datatype Event = Event(update: Update, now: nat)

  function After(events: seq<Event>): (seq<Child>, seq<Launch>) {
    if events == [] then ([], [])
    else
      var (children, launches) := After(events[..|events| - 1]);
      Applied(children, launches, events[|events| - 1].update, events[|events| - 1].now)
  }

  /** At every moment the keys are distinct, at most 16 children are shown and at most 8 launches wait. */
  lemma {:induction false} RosterIsBounded(events: seq<Event>)
    ensures Valid(After(events).0) && |After(events).1| <= MAX_LAUNCHES
  {
    if events != [] {
      RosterIsBounded(events[..|events| - 1]);
      var (children, launches) := After(events[..|events| - 1]);
      AppliedKeeps(children, launches, events[|events| - 1].update, events[|events| - 1].now);
    }
  }

  /** The update says `text` of the child, or of a launch that any child may turn out to be. */
  predicate Says(update: Update, key: Key, text: string) {
    match update
    case Launching(launch) => launch.description == Some(text)
    case Described(k, description) => k == key && description == text
    case Inventory(listings) =>
      exists i :: 0 <= i < |listings| && listings[i].key == key && listings[i].description == Some(text)
    case _ => false
  }

  ghost predicate Said(events: seq<Event>, key: Key, text: string) {
    exists i :: 0 <= i < |events| && Says(events[i].update, key, text)
  }

  predicate Announces(update: Update, launch: Launch) {
    update.Launching? && update.launch.description == launch.description
  }

  ghost predicate LaunchSaid(events: seq<Event>, launch: Launch) {
    launch.description.Some? ==>
      exists i :: 0 <= i < |events| && Announces(events[i].update, launch)
  }

  ghost predicate ChildSaid(events: seq<Event>, c: Child) {
    c.description.Some? ==> Said(events, c.key, c.description.value)
  }

  ghost predicate AllSaid(events: seq<Event>, children: seq<Child>, launches: seq<Launch>) {
    && (forall i :: 0 <= i < |children| ==> ChildSaid(events, children[i]))
    && (forall i :: 0 <= i < |launches| ==> LaunchSaid(events, launches[i]))
  }

  lemma SaidStays(events: seq<Event>, e: Event, children: seq<Child>, launches: seq<Launch>)
    requires AllSaid(events, children, launches)
    ensures AllSaid(events + [e], children, launches)
  {
    var all := events + [e];
    assert forall i :: 0 <= i < |events| ==> all[i] == events[i];
    forall i | 0 <= i < |children| ensures ChildSaid(all, children[i]) { assert ChildSaid(events, children[i]); }
    forall i | 0 <= i < |launches| ensures LaunchSaid(all, launches[i]) { assert LaunchSaid(events, launches[i]); }
  }

  lemma LaunchIsSaid(events: seq<Event>, launch: Launch, key: Key)
    requires LaunchSaid(events, launch) && launch.description.Some?
    ensures Said(events, key, launch.description.value)
  {
    var i :| 0 <= i < |events| && Announces(events[i].update, launch);
    assert Says(events[i].update, key, launch.description.value);
  }

  lemma AddedSaid(events: seq<Event>, children: seq<Child>, launches: seq<Launch>, key: Key, agentType: Option<string>,
                  now: nat)
    requires AllSaid(events, children, launches)
    ensures var (added, left) := Added(children, launches, key, agentType, now); AllSaid(events, added, left)
  {
    if !Has(children, key) && launches != [] {
      var launch := launches[Chosen(launches, agentType)];
      assert LaunchSaid(events, launch);
      if launch.description.Some? { LaunchIsSaid(events, launch, key); }
    }
  }

  lemma {:induction false} RetainedSaid(events: seq<Event>, children: seq<Child>, listings: seq<Listing>)
    requires forall i :: 0 <= i < |children| ==> ChildSaid(events, children[i])
    ensures forall i :: 0 <= i < |Retained(children, listings)| ==> ChildSaid(events, Retained(children, listings)[i])
  {
    if children != [] { RetainedSaid(events, children[1..], listings); }
  }

  lemma {:induction false} MergeAllSaid(events: seq<Event>, children: seq<Child>, listings: seq<Listing>, n: nat,
                                        now: nat, e: nat)
    requires n <= |listings| && e < |events| && events[e].update == Inventory(listings)
    requires forall i :: 0 <= i < |children| ==> ChildSaid(events, children[i])
    ensures forall i :: 0 <= i < |MergeAll(children, listings, n, now)| ==>
              ChildSaid(events, MergeAll(children, listings, n, now)[i])
  {
    if n > 0 {
      MergeAllSaid(events, children, listings, n - 1, now, e);
      var listing := listings[n - 1];
      if listing.description.Some? { assert Says(events[e].update, listing.key, listing.description.value); }
      MergeOneSaid(events, MergeAll(children, listings, n - 1, now), listing, now);
    }
  }

  lemma MergeOneSaid(events: seq<Event>, children: seq<Child>, listing: Listing, now: nat)
    requires forall i :: 0 <= i < |children| ==> ChildSaid(events, children[i])
    requires listing.description.Some? ==> Said(events, listing.key, listing.description.value)
    ensures forall i :: 0 <= i < |MergeOne(children, listing, now)| ==>
              ChildSaid(events, MergeOne(children, listing, now)[i])
  {
  }

  lemma AppliedSaid(events: seq<Event>, children: seq<Child>, launches: seq<Launch>, e: nat)
    requires AllSaid(events, children, launches) && e < |events|
    ensures var (cs, ls) := Applied(children, launches, events[e].update, events[e].now); AllSaid(events, cs, ls)
  {
    var update, now := events[e].update, events[e].now;
    match update {
      case Launching(launch) => assert LaunchSaid(events, launch);
      case Started(key, agentType) => AddedSaid(events, children, launches, key, agentType, now);
      case Active(key, _, _) => AddedSaid(events, children, launches, key, None, now);
      case Described(key, description) =>
        assert Says(update, key, description);
        AddedSaid(events, children, launches, key, None, now);
      case Stopped(_) =>
      case Inventory(listings) =>
        RetainedSaid(events, children, listings);
        MergeAllSaid(events, Retained(children, listings), listings, |listings|, now, e);
    }
  }

  /** In every run a description shown was given for that child by an update, or came with a launch. */
  lemma {:induction false} DescriptionsAreGiven(events: seq<Event>)
    ensures AllSaid(events, After(events).0, After(events).1)
  {
    if events != [] {
      var before, e := events[..|events| - 1], events[|events| - 1];
      DescriptionsAreGiven(before);
      assert before + [e] == events;
      SaidStays(before, e, After(before).0, After(before).1);
      AppliedSaid(events, After(before).0, After(before).1, |events| - 1);
    }
  }

  // ----- the roster -----

  class AgentSubagentRoster {
    var children: seq<Child>
    var launches: seq<Launch>

    ghost predicate Ok()
      reads this
    {
      Valid(children) && |launches| <= MAX_LAUNCHES
    }

    constructor ()
      ensures Ok() && children == [] && launches == []
    {
      children, launches := [], [];
    }

    method Clear() returns (changed: bool)
      modifies this
      ensures Ok() && children == [] && launches == [] && changed == (old(children) != [])
    {
      changed := children != [];
      children, launches := [], [];
    }

    method TakeLaunchDescription(agentType: Option<string>) returns (description: Option<string>)
      requires Ok()
      modifies this`launches
      ensures Ok() && (description, launches) == TakeLaunch(old(launches), agentType)
    {
      var i := 0;
      while i < |launches| && launches[i].agentType != agentType
        invariant 0 <= i <= |launches|
        invariant LaunchIndex(launches, agentType)
                  == if LaunchIndex(launches[i..], agentType) == |launches| - i then |launches|
                     else i + LaunchIndex(launches[i..], agentType)
      {
        assert launches[i..][1..] == launches[i + 1..];
        i := i + 1;
      }
      if launches == [] { return None; }
      if i == |launches| { i := 0; }
      description := launches[i].description;
      launches := launches[..i] + launches[i + 1..];
    }

    method Position(key: Key) returns (i: nat)
      ensures i == Find(children, key)
    {
      i := 0;
      while i < |children| && children[i].key != key
        invariant i <= |children| && Find(children, key) == i + Find(children[i..], key)
      {
        assert children[i..][1..] == children[i + 1..];
        i := i + 1;
      }
    }

    method InsertChild(key: Key, agentType: Option<string>, description: Option<string>, now: nat)
      requires Ok() && !Has(children, key)
      modifies this`children
      ensures Ok() && children == Insert(old(children), Child(key, agentType, description, None, now))
    {
      InsertIsValid(children, Child(key, agentType, description, None, now));
      if |children| < MAX_SUBAGENTS {
        children := children + [Child(key, agentType, description, None, now)];
      }
    }

    /** The child with the key, added if there is room; the length if there is none. */
    method Upsert(key: Key, now: nat) returns (i: nat)
      requires Ok()
      modifies this
      ensures Ok() && i == Find(children, key)
      ensures (children, launches) == Added(old(children), old(launches), key, None, now)
    {
      i := Position(key);
      if i == |children| {
        var description := TakeLaunchDescription(None);
        InsertChild(key, None, description, now);
        i := Position(key);
      }
    }

    method ReplaceChild(i: nat, child: Child)
      requires Ok() && i < |children| && child.key == children[i].key
      modifies this`children
      ensures Ok() && children == old(children)[i := child]
      ensures Find(children, child.key) == Find(old(children), child.key)
    {
      SameKeys(children, children[i := child]);
      FindSame(children, children[i := child], child.key);
      children := children[i := child];
    }

    method Retain(listings: seq<Listing>)
      requires Ok()
      modifies this`children
      ensures Ok() && children == Retained(old(children), listings)
    {
      RetainedIsListed(children, listings);
      var kept, i := [], 0;
      while i < |children|
        invariant 0 <= i <= |children| && Retained(children, listings) == kept + Retained(children[i..], listings)
      {
        assert children[i..][0] == children[i] && children[i..][1..] == children[i + 1..];
        if Listed(listings, children[i].key) { kept := kept + [children[i]]; }
        i := i + 1;
      }
      assert kept + [] == kept;
      children := kept;
    }

    method TakeInventory(listings: seq<Listing>, now: nat)
      requires Ok()
      modifies this
      ensures Ok() && launches == [] && children == AfterInventory(old(children), listings, now)
    {
      launches := [];
      Retain(listings);
      ghost var kept := children;
      for n := 0 to |listings|
        invariant Ok() && launches == [] && children == MergeAll(kept, listings, n, now)
      {
        var listing := listings[n];
        MergeOneIs(children, listing, now);
        var i := Position(listing.key);
        if i < |children| {
          var c := children[i];
          ReplaceChild(i, c.(agentType := FirstOf(c.agentType, listing.agentType),
                             description := FirstOf(c.description, listing.description)));
        } else {
          InsertChild(listing.key, listing.agentType, listing.description, now);
        }
      }
    }

    method StartChild(key: Key, agentType: Option<string>, now: nat)
      requires Ok()
      modifies this
      ensures Ok() && (children, launches) == Added(old(children), old(launches), key, agentType, now)
    {
      var i := Position(key);
      if i == |children| {
        var description := TakeLaunchDescription(agentType);
        InsertChild(key, agentType, description, now);
      }
    }

    method NoteActivity(key: Key, agentType: Option<string>, activity: Option<string>, now: nat)
      requires Ok()
      modifies this
      ensures Ok()
      ensures (children, launches) == Applied(old(children), old(launches), Active(key, agentType, activity), now)
    {
      var i := Upsert(key, now);
      if i < |children| {
        var c := children[i];
        ReplaceChild(i, c.(agentType := FirstOf(c.agentType, agentType),
                           activity := if activity.Some? then activity else c.activity));
      }
    }

    method Describe(key: Key, description: string, now: nat)
      requires Ok()
      modifies this
      ensures Ok() && (children, launches) == Applied(old(children), old(launches), Described(key, description), now)
    {
      var i := Upsert(key, now);
      if i < |children| { ReplaceChild(i, children[i].(description := Some(description))); }
    }

    method Apply(update: Update, now: nat) returns (changed: bool)
      requires Ok()
      modifies this
      ensures Ok() && (children, launches) == Applied(old(children), old(launches), update, now)
      ensures changed == (children != old(children))
    {
      var was := children;
      match update {
        case Launching(launch) =>
          if |launches| == MAX_LAUNCHES { launches := launches[1..]; }
          launches := launches + [launch];
        case Started(key, agentType) => StartChild(key, agentType, now);
        case Active(key, agentType, activity) => NoteActivity(key, agentType, activity, now);
        case Described(key, description) => Describe(key, description, now);
        case Stopped(key) => Stop(key);
        case Inventory(listings) => TakeInventory(listings, now);
      }
      changed := children != was;
    }

    method Stop(key: Key)
      requires Ok()
      modifies this`children
      ensures Ok() && children == Without(old(children), key)
    {
      var i := Position(key);
      if i < |children| {
        RemoveAt(children, i);
        children := children[..i] + children[i + 1..];
      }
    }
  }
}
