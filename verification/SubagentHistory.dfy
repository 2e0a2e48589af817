/** Which subagents are shown, and what is shown of each, told from the updates that were applied. */
module SubagentHistory {
  import opened Common
  import opened SubagentRoster

  ghost function At(children: seq<Child>, key: Key): (c: Option<Child>)
    ensures c.Some? ==> c.value in children && c.value.key == key
    ensures c.None? ==> key !in Keys(children)
  {
    var i := Find(children, key);
    if i < |children| then Some(children[i]) else None
  }

  // ----- what an update says of a child -----

  function TypeListed(listings: seq<Listing>, n: nat, key: Key): Option<string>
    requires n <= |listings|
  {
    if n == 0 then None
    else FirstOf(TypeListed(listings, n - 1, key),
                 if listings[n - 1].key == key then listings[n - 1].agentType else None)
  }

  function DescriptionListed(listings: seq<Listing>, n: nat, key: Key): Option<string>
    requires n <= |listings|
  {
    if n == 0 then None
    else FirstOf(DescriptionListed(listings, n - 1, key),
                 if listings[n - 1].key == key then listings[n - 1].description else None)
  }

  function TypeGiven(update: Update, key: Key): Option<string> {
    match update
    case Started(k, agentType) => if k == key then agentType else None
    case Active(k, agentType, _) => if k == key then agentType else None
    case Inventory(listings) => TypeListed(listings, |listings|, key)
    case _ => None
  }

  /** A start says nothing more of a child that is shown, even if its type is missing. */
  function TypeCompleted(update: Update, key: Key): Option<string> {
    if update.Started? then None else TypeGiven(update, key)
  }

  function ActivityGiven(update: Update, key: Key): Option<string> {
    if update.Active? && update.key == key then update.activity else None
  }

  // ----- launches -----

  /** The launch that a starting child takes: the first of its type, or the first if there is none of its type. */
  ghost predicate IsNextLaunch(launches: seq<Launch>, agentType: Option<string>, i: nat)
    requires i < |launches|
  {
    || (launches[i].agentType == agentType && forall k :: 0 <= k < i ==> launches[k].agentType != agentType)
    || (i == 0 && forall k :: 0 <= k < |launches| ==> launches[k].agentType != agentType)
  }

  lemma {:induction false} LaunchIndexIs(launches: seq<Launch>, agentType: Option<string>, i: nat)
    requires i == LaunchIndex(launches, agentType)
    ensures i < |launches| ==> launches[i].agentType == agentType
    ensures forall k :: 0 <= k < i ==> launches[k].agentType != agentType
  {
    if launches != [] && launches[0].agentType != agentType {
      LaunchIndexIs(launches[1..], agentType, LaunchIndex(launches[1..], agentType));
      assert forall k :: 0 < k < |launches| ==> launches[k] == launches[1..][k - 1];
    }
  }

  /** A starting child takes the description of one launch, which is used up; the others wait on, in order. */
  lemma LaunchIsTaken(launches: seq<Launch>, agentType: Option<string>, i: nat)
    requires i < |launches| && IsNextLaunch(launches, agentType, i)
    ensures TakeLaunch(launches, agentType) == (launches[i].description, launches[..i] + launches[i + 1..])
  {
    LaunchIndexIs(launches, agentType, LaunchIndex(launches, agentType));
  }

  /** The last eight launches wait. */
  lemma LastLaunchesWait(launches: seq<Launch>, launch: Launch)
    requires |launches| <= 8
    ensures var all := launches + [launch];
            Launched(launches, launch) == all[if |all| <= 8 then 0 else |all| - 8..]
  {
  }

  function StartType(update: Update): Option<string> { if update.Started? then update.agentType else None }

  /** Only a start uses a launch up: an unknown child's, whether or not there is room for it. */
  lemma LaunchesAreUsed(children: seq<Child>, launches: seq<Launch>, update: Update, now: nat)
    ensures var left := Applied(children, launches, update, now).1;
            match update
            case Launching(launch) => left == Launched(launches, launch)
            case Stopped(_) => left == launches
            case Inventory(_) => left == []
            case _ => left == if At(children, update.key).Some? then launches
                              else TakeLaunch(launches, StartType(update)).1
  {
  }

  // ----- who is shown -----

  lemma AtIsKey(children: seq<Child>, key: Key)
    ensures At(children, key).Some? <==> key in Keys(children)
  {
  }

  /** The key is listed at i, and the keys that come before it, `had` and those listed, are fewer than sixteen. */
  ghost predicate HasRoom(had: set<Key>, listings: seq<Listing>, i: nat, key: Key)
    requires i < |listings|
  {
    listings[i].key == key && |had + FirstKeys(listings, i)| < 16
  }

  ghost predicate HasPlace(had: set<Key>, listings: seq<Listing>, n: nat, key: Key)
    requires n <= |listings|
  {
    exists i :: 0 <= i < n && HasRoom(had, listings, i, key)
  }

  /** A child the roster should show after an update: it is shown or starts, there being room. */
  ghost predicate IsShown(children: seq<Child>, update: Update, key: Key) {
    match update
    case Launching(_) => key in Keys(children)
    case Stopped(k) => key in Keys(children) && k != key
    case Inventory(listings) =>
      if key in Keys(children) then key in ListedKeys(listings)
      else HasPlace(Keys(children) * ListedKeys(listings), listings, |listings|, key)
    case _ => key in Keys(children) || (update.key == key && |children| < 16)
  }

  /** The children are all the keys if there is room, and otherwise sixteen of them. */
  ghost predicate Fills(children: seq<Child>, all: set<Key>) {
    && Valid(children) && Keys(children) <= all
    && (if |all| <= 16 then Keys(children) == all else |children| == 16)
  }

  lemma FilledNext(m: seq<Child>, all: set<Key>, listing: Listing, now: nat)
    requires Fills(m, all)
    ensures Fills(MergeOne(m, listing, now), all + {listing.key})
  {
    MergeOneIs(m, listing, now);
    DistinctCounts(m);
    AtIsKey(m, listing.key);
    if listing.key in all {
      assert all + {listing.key} == all;
    } else {
      assert |all + {listing.key}| == |all| + 1;
    }
  }

  /** Until sixteen keys are placed an inventory shows all of them; from then on it shows no more. */
  lemma {:induction false} MergedFill(children: seq<Child>, listings: seq<Listing>, n: nat, now: nat)
    requires Valid(children) && n <= |listings|
    ensures Fills(MergeAll(children, listings, n, now), Keys(children) + FirstKeys(listings, n))
  {
    if n == 0 {
      assert Keys(children) + {} == Keys(children);
      DistinctCounts(children);
    } else {
      MergedFill(children, listings, n - 1, now);
      var all := Keys(children) + FirstKeys(listings, n - 1);
      FilledNext(MergeAll(children, listings, n - 1, now), all, listings[n - 1], now);
      assert all + {listings[n - 1].key} == Keys(children) + FirstKeys(listings, n);
    }
  }

  lemma ShowNext(m: seq<Child>, all: set<Key>, listing: Listing, now: nat, key: Key)
    requires Fills(m, all)
    ensures key in Keys(MergeOne(m, listing, now)) <==> key in Keys(m) || (listing.key == key && |all| < 16)
  {
    MergeOneIs(m, listing, now);
    DistinctCounts(m);
    AtIsKey(m, listing.key);
  }

  /** A key that is not shown at first is shown once it is listed while there is room, and then stays. */
  lemma {:induction false} MergedShow(children: seq<Child>, listings: seq<Listing>, n: nat, now: nat, key: Key)
    requires Valid(children) && n <= |listings| && key !in Keys(children)
    ensures key in Keys(MergeAll(children, listings, n, now))
            <==> HasPlace(Keys(children), listings, n, key)
  {
    if n > 0 {
      MergedShow(children, listings, n - 1, now, key);
      MergedFill(children, listings, n - 1, now);
      ShowNext(MergeAll(children, listings, n - 1, now), Keys(children) + FirstKeys(listings, n - 1),
               listings[n - 1], now, key);
      PlaceNext(Keys(children), listings, n, n - 1, key);
    }
  }

  lemma PlaceNext(had: set<Key>, listings: seq<Listing>, n: nat, m: nat, key: Key)
    requires n == m + 1 <= |listings|
    ensures HasPlace(had, listings, n, key) <==> HasPlace(had, listings, m, key) || HasRoom(had, listings, m, key)
  {
  }

  lemma InventoryShows(children: seq<Child>, listings: seq<Listing>, now: nat, key: Key)
    requires Valid(children)
    ensures key in Keys(AfterInventory(children, listings, now)) <==> IsShown(children, Inventory(listings), key)
  {
    var kept := Retained(children, listings);
    RetainedIsListed(children, listings);
    if key in Keys(kept) {
      MergeAllIsValid(kept, listings, |listings|, now);
      ExtendsKeys(kept, AfterInventory(children, listings, now), key);
    } else {
      MergedShow(kept, listings, |listings|, now, key);
    }
  }

  lemma ExtendsKeys(children: seq<Child>, later: seq<Child>, key: Key)
    requires Extends(children, later) && key in Keys(children)
    ensures key in Keys(later)
  {
    var i :| 0 <= i < |children| && children[i].key == key;
    assert later[i].key == key;
  }

  lemma AddedShows(children: seq<Child>, launches: seq<Launch>, k: Key, agentType: Option<string>, now: nat, key: Key)
    requires Valid(children)
    ensures key in Keys(Added(children, launches, k, agentType, now).0)
            <==> key in Keys(children) || (k == key && |children| < 16)
  {
    AtIsKey(children, k);
    if !Has(children, k) {
      InsertIsValid(children, Child(k, agentType, TakeLaunch(launches, agentType).0, None, now));
    }
  }

  /**
  A child is shown after an update exactly when it was and is neither stopped nor
  missing from an inventory, or it starts or is listed while fewer than sixteen
  are shown.
   */
  lemma ShownExactly(children: seq<Child>, launches: seq<Launch>, update: Update, now: nat, key: Key)
    requires Valid(children)
    ensures key in Keys(Applied(children, launches, update, now).0) <==> IsShown(children, update, key)
  {
    match update {
      case Launching(_) =>
      case Stopped(k) => WithoutDrops(children, k);
      case Inventory(listings) => InventoryShows(children, listings, now, key);
      case Started(k, agentType) => AddedShows(children, launches, k, agentType, now, key);
      case Active(k, _, _) =>
        AddedShows(children, launches, k, None, now, key);
        SameKeys(Added(children, launches, k, None, now).0, Applied(children, launches, update, now).0);
      case Described(k, _) =>
        AddedShows(children, launches, k, None, now, key);
        SameKeys(Added(children, launches, k, None, now).0, Applied(children, launches, update, now).0);
    }
  }

  // ----- what is shown of a child -----

  /** What a child that starts is described as. */
  function FirstDescription(launches: seq<Launch>, update: Update, key: Key): Option<string> {
    match update
    case Described(_, description) => Some(description)
    case Inventory(listings) => DescriptionListed(listings, |listings|, key)
    case _ => TakeLaunch(launches, StartType(update)).0
  }

  /** What a child shown with `was` is described as after the update. */
  function NextDescription(was: Option<string>, update: Update, key: Key): Option<string> {
    match update
    case Described(k, description) => if k == key then Some(description) else was
    case Inventory(listings) => FirstOf(was, DescriptionListed(listings, |listings|, key))
    case _ => was
  }

  /** A child keeps its first type and its last activity, and the time it started. */
  ghost predicate IsNext(was: Option<Child>, c: Child, launches: seq<Launch>, update: Update, now: nat) {
    if was.Some? then
      && c.started == was.value.started && c.key == was.value.key
      && c.agentType == FirstOf(was.value.agentType, TypeCompleted(update, c.key))
      && c.activity == FirstOf(ActivityGiven(update, c.key), was.value.activity)
      && c.description == NextDescription(was.value.description, update, c.key)
    else
      && c.started == now
      && c.agentType == TypeGiven(update, c.key) && c.activity == ActivityGiven(update, c.key)
      && c.description == FirstDescription(launches, update, c.key)
  }

  /** The child after the first n listings. */
  ghost predicate IsMerged(was: Option<Child>, c: Child, listings: seq<Listing>, n: nat, now: nat)
    requires n <= |listings|
  {
    if was.Some? then
      && c == was.value.(agentType := FirstOf(was.value.agentType, TypeListed(listings, n, c.key)),
                         description := FirstOf(was.value.description, DescriptionListed(listings, n, c.key)))
    else
      c == Child(c.key, TypeListed(listings, n, c.key), DescriptionListed(listings, n, c.key), None, now)
  }

  ghost predicate Merging(was: Option<Child>, m: seq<Child>, listings: seq<Listing>, n: nat, now: nat, key: Key)
    requires n <= |listings|
  {
    if At(m, key).Some? then IsMerged(was, At(m, key).value, listings, n, now)
    else
      was.None? && (|m| == 16 || Unlisted(listings, n, key))
  }

  ghost predicate Unlisted(listings: seq<Listing>, n: nat, key: Key)
    requires n <= |listings|
  {
    TypeListed(listings, n, key).None? && DescriptionListed(listings, n, key).None?
  }

  lemma {:induction false} FindAppended(children: seq<Child>, c: Child, key: Key)
    ensures Find(children + [c], key)
            == if Has(children, key) then Find(children, key) else if c.key == key then |children| else |children| + 1
  {
    if children != [] {
      assert (children + [c])[1..] == children[1..] + [c];
      FindAppended(children[1..], c, key);
    }
  }

  lemma MergingNext(was: Option<Child>, m: seq<Child>, next: seq<Child>, listings: seq<Listing>, k: nat, n: nat,
                    now: nat, key: Key)
    requires n == k + 1 <= |listings| && Valid(m) && Merging(was, m, listings, k, now, key)
    requires next == MergeOne(m, listings[k], now)
    ensures Merging(was, next, listings, n, now, key)
  {
    var i := Find(m, listings[k].key);
    if i < |m| {
      FindSame(m, next, key);
    } else if |m| < 16 {
      FindAppended(m, next[|m|], key);
    }
  }

  lemma {:induction false} AllMerged(was: Option<Child>, kept: seq<Child>, listings: seq<Listing>, n: nat, now: nat,
                                     key: Key)
    requires n <= |listings| && Valid(kept) && was == At(kept, key)
    ensures Merging(was, MergeAll(kept, listings, n, now), listings, n, now, key)
  {
    if n > 0 {
      AllMerged(was, kept, listings, n - 1, now, key);
      MergeAllIsValid(kept, listings, n - 1, now);
      MergingNext(was, MergeAll(kept, listings, n - 1, now), MergeAll(kept, listings, n, now), listings, n - 1, n,
                  now, key);
    }
  }

  /** An inventory leaves the listed children as they are. */
  lemma RetainedAt(children: seq<Child>, listings: seq<Listing>, key: Key)
    requires Distinct(children)
    ensures At(Retained(children, listings), key) == if key in ListedKeys(listings) then At(children, key) else None
  {
    var kept := Retained(children, listings);
    RetainedIsListed(children, listings);
    AtIsKey(kept, key);
    AtIsKey(children, key);
    if Has(kept, key) { RetainedInOrder(children, listings, Find(kept, key)); }
  }

  /** What an update leaves of the child of a key. */
  ghost predicate Tells(children: seq<Child>, launches: seq<Launch>, update: Update, now: nat, key: Key,
                        after: seq<Child>)
  {
    At(after, key).Some? ==> IsNext(At(children, key), At(after, key).value, launches, update, now)
  }

  lemma InventoryTells(children: seq<Child>, launches: seq<Launch>, listings: seq<Listing>, now: nat, key: Key)
    requires Valid(children)
    ensures Tells(children, launches, Inventory(listings), now, key, AfterInventory(children, listings, now))
  {
    var kept := Retained(children, listings);
    RetainedIsListed(children, listings);
    RetainedAt(children, listings, key);
    AllMerged(At(kept, key), kept, listings, |listings|, now, key);
    InventoryShows(children, listings, now, key);
    AtIsKey(AfterInventory(children, listings, now), key);
    AtIsKey(children, key);
  }

  lemma AddedTells(children: seq<Child>, launches: seq<Launch>, k: Key, agentType: Option<string>, now: nat, key: Key)
    requires Valid(children)
    ensures var added := Added(children, launches, k, agentType, now).0;
            At(added, key)
            == if Has(children, key) then At(children, key)
               else if k == key && |children| < 16 then
                 Some(Child(key, agentType, TakeLaunch(launches, agentType).0, None, now))
               else None
  {
    if !Has(children, k) && |children| < 16 {
      FindAppended(children, Child(k, agentType, TakeLaunch(launches, agentType).0, None, now), key);
    }
  }

  lemma ActedTells(children: seq<Child>, update: Update, key: Key, after: seq<Child>)
    requires update.Active? || update.Described?
    requires update.Active? ==> after == Acted(children, update.key, update.agentType, update.activity)
    requires update.Described? ==> after == DescribedAs(children, update.key, update.description)
    ensures At(after, key).Some? <==> At(children, key).Some?
    ensures At(children, key).Some? ==>
              var c := At(children, key).value;
              At(after, key) == Some(c.(agentType := FirstOf(c.agentType, TypeCompleted(update, key)),
                                        activity := FirstOf(ActivityGiven(update, key), c.activity),
                                        description := NextDescription(c.description, update, key)))
  {
    FindSame(children, after, key);
  }

  lemma WithoutTells(children: seq<Child>, k: Key, key: Key)
    requires Valid(children) && k != key
    ensures At(Without(children, k), key) == At(children, key)
  {
    WithoutDrops(children, k);
    AtIsKey(children, key);
    AtIsKey(Without(children, k), key);
  }

  /** What is shown of a child after an update is what was shown before and what the update says of it. */
  lemma ToldExactly(children: seq<Child>, launches: seq<Launch>, update: Update, now: nat, key: Key)
    requires Valid(children)
    ensures Tells(children, launches, update, now, key, Applied(children, launches, update, now).0)
  {
    var after := Applied(children, launches, update, now).0;
    match update {
      case Launching(_) =>
      case Stopped(k) =>
        if k == key { ShownExactly(children, launches, update, now, key); AtIsKey(after, key); }
        else { WithoutTells(children, k, key); }
      case Inventory(listings) => InventoryTells(children, launches, listings, now, key);
      case Started(k, agentType) => AddedTells(children, launches, k, agentType, now, key);
      case _ =>
        AddedTells(children, launches, update.key, None, now, key);
        ActedTells(Added(children, launches, update.key, None, now).0, update, key, after);
    }
  }

  // ----- runs -----

  /** The child of the key after n events. */
  ghost function Showing(events: seq<Event>, n: nat, key: Key): Option<Child>
    requires n <= |events|
  {
    At(After(events[..n]).0, key)
  }

  /** The first type given since event m, with which the child appeared. */
  function TypeSince(events: seq<Event>, m: nat, n: nat, key: Key): Option<string>
    requires m < n <= |events|
    decreases n
  {
    if n == m + 1 then TypeGiven(events[m].update, key)
    else FirstOf(TypeSince(events, m, n - 1, key), TypeCompleted(events[n - 1].update, key))
  }

  /** The last activity given since event m. */
  function ActivitySince(events: seq<Event>, m: nat, n: nat, key: Key): Option<string>
    requires m <= n <= |events|
    decreases n
  {
    if n == m then None else FirstOf(ActivityGiven(events[n - 1].update, key), ActivitySince(events, m, n - 1, key))
  }

  /** The description since event m, with which the child appeared. */
  function DescriptionSince(events: seq<Event>, m: nat, n: nat, key: Key): Option<string>
    requires m < n <= |events|
    decreases n
  {
    if n == m + 1 then FirstDescription(After(events[..m]).1, events[m].update, key)
    else NextDescription(DescriptionSince(events, m, n - 1, key), events[n - 1].update, key)
  }

  lemma AfterNext(events: seq<Event>, n: nat, m: nat)
    requires n == m + 1 <= |events|
    ensures var (children, launches) := After(events[..m]);
            After(events[..n]) == Applied(children, launches, events[m].update, events[m].now)
  {
    assert events[..n][..m] == events[..m];
  }

  lemma ShowingNext(events: seq<Event>, n: nat, m: nat, key: Key)
    requires n == m + 1 <= |events| && Showing(events, n, key).Some?
    ensures IsNext(Showing(events, m, key), Showing(events, n, key).value, After(events[..m]).1, events[m].update,
                   events[m].now)
  {
    AfterNext(events, n, m);
    RosterIsBounded(events[..m]);
    ToldExactly(After(events[..m]).0, After(events[..m]).1, events[m].update, events[m].now, key);
  }

  /**
  In every run a child that appeared with event m and has been shown since shows
  the time of that event, the first type and the last activity given since, and
  its description.
   */
  lemma {:induction false} HistoryIsShown(events: seq<Event>, m: nat, n: nat, key: Key)
    requires m < n <= |events| && Showing(events, m, key).None?
    requires forall k :: m < k <= n ==> Showing(events, k, key).Some?
    ensures Showing(events, n, key)
            == Some(Child(key, TypeSince(events, m, n, key), DescriptionSince(events, m, n, key),
                          ActivitySince(events, m, n, key), events[m].now))
    decreases n
  {
    ShowingNext(events, n, n - 1, key);
    if n == m + 1 {
      assert ActivitySince(events, m, m, key) == None;
    } else {
      HistoryIsShown(events, m, n - 1, key);
    }
  }

  /** In every run the children shown are exactly those that started and were not stopped, as there was room. */
  lemma RunShowsExactly(events: seq<Event>, n: nat, key: Key)
    requires n < |events|
    ensures Showing(events, n + 1, key).Some? <==> IsShown(After(events[..n]).0, events[n].update, key)
  {
    AfterNext(events, n + 1, n);
    RosterIsBounded(events[..n]);
    ShownExactly(After(events[..n]).0, After(events[..n]).1, events[n].update, events[n].now, key);
    AtIsKey(After(events[..n + 1]).0, key);
  }
}
