/** The folds over versions: which artifact an automatic update picks
    (`internal/api/device_refresh.go`) and which deployments and subscriptions
    have an update (`internal/api/store.go`). */
module Updates {
  import opened Prelude
  import opened Versions
  import opened VersionOrder

  type ArtifactId = nat
  type DeploymentId = nat

  // ------------------------------------------------------- automatic updates

  /** An approved artifact of the wanted bundle and platform, other than the source. */
  datatype Candidate = Candidate(id: ArtifactId, version: string, filename: string)

  /** What the first query finds: the deployment's policy and the source's metadata. */
  datatype Source = Source(autoUpdate: bool, bundle: string, version: string)

  datatype Update = Update(id: ArtifactId, version: string, from: string)

  const MARKERS := ["beta", "alpha", "rc", "nightly", "preview", "dev", "testflight", "snapshot"]

  /** `lower` stands for strings.ToLower. */
  predicate Prerelease(s: string, lower: string -> string) {
    exists k :: 0 <= k < |MARKERS| && Contains(lower(s), MARKERS[k])
  }

  method LooksPrerelease(s: string, lower: string -> string) returns (yes: bool)
    ensures yes <==> Prerelease(s, lower)
  {
    var l := lower(s);
    var k := 0;
    while k < |MARKERS|
      invariant 0 <= k <= |MARKERS| && forall j :: 0 <= j < k ==> !Contains(l, MARKERS[j])
    {
      if Contains(l, MARKERS[k]) { return true; }
      k := k + 1;
    }
    return false;
  }

  /** A text that has one of these eight words in it, in lower case. */
  ghost predicate Marked(text: string) {
    exists a, m, b :: m in {"beta", "alpha", "rc", "nightly", "preview", "dev", "testflight", "snapshot"}
                      && text == a + m + b
  }

  lemma PrereleaseMeans(s: string, lower: string -> string)
    ensures Prerelease(s, lower) <==> Marked(lower(s))
  {
    hide Contains;
    if Prerelease(s, lower) {
      var k :| 0 <= k < |MARKERS| && Contains(lower(s), MARKERS[k]);
      ContainsMeans(lower(s), MARKERS[k]);
    }
    if a, m, b :| m in {"beta", "alpha", "rc", "nightly", "preview", "dev", "testflight", "snapshot"}
                   && lower(s) == a + m + b {
      ContainsMeans(lower(s), m);
      assert m in MARKERS;
      var k :| 0 <= k < |MARKERS| && MARKERS[k] == m;
    }
  }

  predicate Eligible(c: Candidate, source: Source, lower: string -> string) {
    Compare(c.version, source.version) > 0 && !Prerelease(c.version, lower) && !Prerelease(c.filename, lower)
  }

  ghost function Pool(source: Source, rows: seq<Candidate>, lower: string -> string): set<Candidate> {
    set c | c in rows && Eligible(c, source, lower)
  }

  /** An update is chosen exactly if consent was given and some row is eligible; it
      is then an eligible row, and no eligible row has a newer version. */
  ghost predicate Picks(source: Option<Source>, rows: seq<Candidate>, lower: string -> string, pick: Option<Update>) {
    && (pick.Some? <==> source.Some? && source.value.bundle != "" && source.value.autoUpdate
                        && Pool(source.value, rows, lower) != {})
    && (pick.Some? ==>
          && pick.value.from == source.value.version
          && exists c :: c in Pool(source.value, rows, lower)
              && pick.value == Update(c.id, c.version, source.value.version)
                         && Newest(c.version, Offered(Pool(source.value, rows, lower))))
  }

  function Offered(pool: set<Candidate>): set<string> { set c | c in pool :: c.version }

  /** None of the versions is newer, as long as they are all ordered among themselves. */
  ghost predicate Newest(v: string, versions: set<string>) {
    (forall x :: x in versions ==> Fitting(x)) ==> forall x :: x in versions ==> Compare(x, v) <= 0
  }

  method ResolveUpdateArtifact(source: Option<Source>, rows: seq<Candidate>, lower: string -> string)
    returns (pick: Option<Update>)
    ensures Picks(source, rows, lower, pick)
  {
    if source.None? || source.value.bundle == "" || !source.value.autoUpdate { return None; }
    var version := source.value.version;
    var best: Option<Candidate> := None;
    var i := 0;
    while i < |rows|
      invariant 0 <= i <= |rows|
      invariant best.None? ==> Pool(source.value, rows[..i], lower) == {}
      invariant best.Some? ==> best.value in Pool(source.value, rows[..i], lower)
      invariant best.Some? ==> Newest(best.value.version, Offered(Pool(source.value, rows[..i], lower)))
    {
      hide Compare, Fitting, Prerelease, Newest, Picks;
      var c := rows[i];
      ghost var pool := Pool(source.value, rows[..i], lower);
      assert rows[..i + 1] == rows[..i] + [c];
      assert Pool(source.value, rows[..i + 1], lower) == pool + if Eligible(c, source.value, lower) then {c} else {};
      var newer := CompareVersions(c.version, version);
      var pre := LooksPrerelease(c.version, lower);
      var preName := LooksPrerelease(c.filename, lower);
      if newer > 0 && !pre && !preName {
        if best.None? {
          best := Some(c);
          assert Offered(pool + {c}) == {c.version};
          NewestAlone(c.version);
        } else {
          var cmp := CompareVersions(c.version, best.value.version);
          assert best.value.version in Offered(pool);
          NewestOfTwo(best.value.version, c.version, Offered(pool));
          assert Offered(pool + {c}) == Offered(pool) + {c.version};
          if cmp > 0 { best := Some(c); }
        }
      }
      i := i + 1;
    }
    assert rows[..i] == rows;
    return if best.Some? then Some(Update(best.value.id, best.value.version, version)) else None;
  }

  /** A row that may be chosen over the source: newer, and no word of its version or
      file name marks a prerelease. */
  ghost predicate Beats(c: Candidate, source: Source, lower: string -> string) {
    Compare(c.version, source.version) > 0 && !Marked(lower(c.version)) && !Marked(lower(c.filename))
  }

  /** An update is chosen if and only if consent was given, the source names its
      bundle and some row beats the source; and it is such a row's. */
  lemma PickMeans(source: Option<Source>, rows: seq<Candidate>, lower: string -> string, pick: Option<Update>)
    requires Picks(source, rows, lower, pick)
    ensures pick.Some? <==>
              && source.Some? && source.value.autoUpdate && source.value.bundle != ""
              && exists c :: c in rows && Beats(c, source.value, lower)
    ensures pick.Some? ==>
              exists c :: c in rows && Beats(c, source.value, lower)
                          && pick.value == Update(c.id, c.version, source.value.version)
  {
    hide Marked, Compare, Prerelease, Newest;
    forall s ensures Prerelease(s, lower) <==> Marked(lower(s)) { PrereleaseMeans(s, lower); }
    if source.Some? {
      assert forall c :: c in rows && Beats(c, source.value, lower) <==> c in Pool(source.value, rows, lower);
    }
  }

  lemma NewestAlone(v: string)
    ensures Newest(v, {v})
  {
    SameVersion(v);
  }

  lemma NewestOfTwo(best: string, v: string, versions: set<string>)
    requires best in versions && Newest(best, versions)
    ensures Newest(if Compare(v, best) > 0 then v else best, versions + {v})
  {
    hide Compare, Fitting;
    SameVersion(v);
    Antisymmetric(v, best);
    if Compare(v, best) > 0 && forall x :: x in versions + {v} ==> Fitting(x) {
      forall x | x in versions ensures Compare(x, v) <= 0 { Transitive(x, best, v); }
    }
  }

  lemma SameVersion(v: string)
    ensures Compare(v, v) == 0
  {
    Antisymmetric(v, v);
  }

  /** In whatever order the rows arrive, the same version is picked, up to spelling. */
  lemma PickIgnoresOrder(source: Option<Source>, a: seq<Candidate>, b: seq<Candidate>, lower: string -> string,
                         x: Option<Update>, y: Option<Update>)
    requires Picks(source, a, lower, x) && Picks(source, b, lower, y) && multiset(a) == multiset(b)
    requires forall c :: c in a ==> Fitting(c.version)
    ensures x.Some? <==> y.Some?
    ensures x.Some? ==> Compare(x.value.version, y.value.version) == 0
  {
    hide Compare, Fitting, Eligible;
    forall c ensures c in a <==> c in b { assert c in multiset(a) <==> c in multiset(b); }
    if source.Some? {
      assert Pool(source.value, a, lower) == Pool(source.value, b, lower);
      if x.Some? && y.Some? {
        assert x.value.version in Offered(Pool(source.value, a, lower))
            && y.value.version in Offered(Pool(source.value, a, lower));
        Antisymmetric(x.value.version, y.value.version);
      }
    }
  }

  // ------------------------------------------------------------- the catalogue

  datatype Deployed = Deployed(id: DeploymentId, bundle: string, version: string)

  datatype Listing = Listing(bundle: string, version: string, url: string)

  function VersionsFor(listings: seq<Listing>, bundle: string): set<string> {
    set l | l in listings && l.bundle == bundle :: l.version
  }

  /** The listing that leads when the rows have been compared in order, each with
      the one leading before it. */
  function Lead(listings: seq<Listing>, bundle: string): Option<Listing> {
    if listings == [] then None
    else
      var front, l := Lead(listings[..|listings| - 1], bundle), listings[|listings| - 1];
      if l.bundle == bundle && (front.None? || Compare(l.version, front.value.version) > 0) then Some(l) else front
  }

  lemma LeadStep(listings: seq<Listing>, l: Listing, bundle: string)
    ensures var front := Lead(listings, bundle);
            Lead(listings + [l], bundle)
            == if l.bundle == bundle && (front.None? || Compare(l.version, front.value.version) > 0) then Some(l)
                else front
  {
    assert (listings + [l])[..|listings|] == listings;
  }

  /** The best-listing map: one entry for each listed bundle, the listing that leads,
      which is a newest one. */
  ghost predicate Best(best: map<string, Listing>, listings: seq<Listing>) {
    && (forall l :: l in listings ==> l.bundle in best)
    && (forall b :: Lead(listings, b) == if b in best then Some(best[b]) else None)
    && (forall b :: b in best ==>
          best[b] in listings && best[b].bundle == b && Newest(best[b].version, VersionsFor(listings, b)))
  }

  method BestListings(rows: seq<Listing>) returns (best: map<string, Listing>)
    ensures Best(best, rows)
  {
    best := map[];
    var i := 0;
    while i < |rows|
      invariant 0 <= i <= |rows| && Best(best, rows[..i])
    {
      var l := rows[i];
      var newer := true;
      if l.bundle in best {
        var c := CompareVersions(l.version, best[l.bundle].version);
        newer := c > 0;
      }
      BestStep(best, rows[..i], l);
      assert rows[..i + 1] == rows[..i] + [l];
      if newer { best := best[l.bundle := l]; }
      i := i + 1;
    }
    assert rows[..i] == rows;
  }

  lemma BestStep(best: map<string, Listing>, listings: seq<Listing>, l: Listing)
    requires Best(best, listings)
    ensures Best(if l.bundle in best && Compare(l.version, best[l.bundle].version) <= 0 then best
        else best[l.bundle := l], listings + [l])
  {
    hide Compare, Newest, Lead;
    forall b ensures Lead(listings + [l], b) == if l.bundle == b
        && (Lead(listings, b).None? || Compare(l.version, Lead(listings, b).value.version) > 0)
                                                then Some(l) else Lead(listings, b)
    {
      LeadStep(listings, l, b);
    }
    forall b | b != l.bundle ensures VersionsFor(listings + [l], b) == VersionsFor(listings, b) { }
    assert VersionsFor(listings + [l], l.bundle) == VersionsFor(listings, l.bundle) + {l.version};
    if l.bundle in best {
      assert best[l.bundle].version in VersionsFor(listings, l.bundle);
      NewestOfTwo(best[l.bundle].version, l.version, VersionsFor(listings, l.bundle));
    } else {
      assert VersionsFor(listings, l.bundle) == {};
      assert VersionsFor(listings + [l], l.bundle) == {l.version};
      NewestAlone(l.version);
    }
  }

  datatype Subscription = Subscription(bundle: string, seen: string)

  datatype Entry = ForDeployment(dep: Deployed, listing: Listing) | ForSubscription(sub: Subscription, listing: Listing)

  /** WHERE bundle_id = ANY(bundles) */
  function Within(listings: seq<Listing>, bundles: seq<string>): seq<Listing> {
    if listings == [] then []
    else
      var front, l := Within(listings[..|listings| - 1], bundles), listings[|listings| - 1];
      if l.bundle in bundles then front + [l] else front
  }

  lemma {:induction false} WithinMembers(listings: seq<Listing>, bundles: seq<string>)
    ensures forall l :: l in Within(listings, bundles) <==> l in listings && l.bundle in bundles
  {
    if listings != [] {
      WithinMembers(listings[..|listings| - 1], bundles);
      assert listings == listings[..|listings| - 1] + [listings[|listings| - 1]];
    }
  }

  lemma {:induction false} WithinLead(listings: seq<Listing>, bundles: seq<string>, bundle: string)
    requires bundle in bundles
    ensures Lead(Within(listings, bundles), bundle) == Lead(listings, bundle)
  {
    if listings != [] {
      var front, l := listings[..|listings| - 1], listings[|listings| - 1];
      WithinLead(front, bundles, bundle);
      LeadStep(Within(front, bundles), l, bundle);
    }
  }

  method Bundles(deps: seq<Deployed>) returns (bundles: seq<string>)
    ensures forall b :: b in bundles <==> exists d :: d in deps && d.bundle == b
    ensures forall i, j :: 0 <= i < j < |bundles| ==> bundles[i] != bundles[j]
  {
    bundles := [];
    var seen: set<string> := {};
    var i := 0;
    while i < |deps|
      invariant 0 <= i <= |deps| && forall b :: b in seen <==> b in bundles
      invariant forall b :: b in bundles <==> exists d :: d in deps[..i] && d.bundle == b
      invariant forall i, j :: 0 <= i < j < |bundles| ==> bundles[i] != bundles[j]
    {
      var d := deps[i];
      assert deps[..i + 1] == deps[..i] + [d];
      if d.bundle !in seen {
        seen := seen + {d.bundle};
        bundles := bundles + [d.bundle];
      }
      i := i + 1;
    }
    assert deps[..i] == deps;
  }

  /** The bundle's leading listing, which is one of its newest, if it has any. */
  ghost predicate Chosen(pick: Option<Listing>, listings: seq<Listing>, bundle: string) {
    pick == Lead(listings, bundle)
    && match pick
    case None => forall l :: l in listings ==> l.bundle != bundle
    case Some(l) => l in listings && l.bundle == bundle && Newest(l.version, VersionsFor(listings, bundle))
  }

  lemma BestIsChosen(best: map<string, Listing>, listings: seq<Listing>, bundles: seq<string>, bundle: string)
    requires Best(best, Within(listings, bundles)) && bundle in bundles
    ensures Chosen(if bundle in best then Some(best[bundle]) else None, listings, bundle)
  {
    hide Newest, Lead;
    WithinMembers(listings, bundles);
    WithinLead(listings, bundles, bundle);
    assert VersionsFor(Within(listings, bundles), bundle) == VersionsFor(listings, bundle);
  }

  predicate Outdated(d: Deployed, pick: Option<Listing>) { pick.Some? && Compare(pick.value.version, d.version) > 0 }

  predicate Surfaces(s: Subscription, pick: Option<Listing>) {
    pick.Some? && (s.seen == "" || Compare(pick.value.version, s.seen) > 0) && pick.value.url != ""
  }

  /** The deployments' entries in order; `picks` is what the fold settled on for each. */
  function DeploymentEntries(deps: seq<Deployed>, picks: seq<Option<Listing>>): seq<Entry>
    requires |picks| == |deps|
  {
    if deps == [] then []
    else
      var n := |deps| - 1;
      DeploymentEntries(deps[..n], picks[..n])
      + if Outdated(deps[n], picks[n]) then [ForDeployment(deps[n], picks[n].value)] else []
  }

  function SubscriptionEntries(subs: seq<Subscription>, picks: seq<Option<Listing>>): seq<Entry>
    requires |picks| == |subs|
  {
    if subs == [] then []
    else
      var n := |subs| - 1;
      SubscriptionEntries(subs[..n], picks[..n])
      + if Surfaces(subs[n], picks[n]) then [ForSubscription(subs[n], picks[n].value)] else []
  }

  lemma NoEntries()
    ensures DeploymentEntries([], []) == [] && SubscriptionEntries([], []) == []
  {
  }

  lemma OneMoreDeployment(deps: seq<Deployed>, picks: seq<Option<Listing>>, d: Deployed, pick: Option<Listing>)
    requires |picks| == |deps|
    ensures DeploymentEntries(deps + [d], picks + [pick])
         == DeploymentEntries(deps, picks) + if Outdated(d, pick) then [ForDeployment(d, pick.value)] else []
  {
    assert (deps + [d])[..|deps|] == deps && (picks + [pick])[..|deps|] == picks;
  }

  lemma OneMoreSubscription(subs: seq<Subscription>, picks: seq<Option<Listing>>, s: Subscription,
                            pick: Option<Listing>)
    requires |picks| == |subs|
    ensures SubscriptionEntries(subs + [s], picks + [pick])
         == SubscriptionEntries(subs, picks) + if Surfaces(s, pick) then [ForSubscription(s, pick.value)] else []
  {
    assert (subs + [s])[..|subs|] == subs && (picks + [pick])[..|subs|] == picks;
  }

  /** The deployments part of handleListUpdates. */
  method ListDeployments(deps: seq<Deployed>, listings: seq<Listing>, bundles: seq<string>, best: map<string, Listing>)
    returns (updates: seq<Entry>, ghost picks: seq<Option<Listing>>)
    requires Best(best, Within(listings, bundles)) && forall d :: d in deps ==> d.bundle in bundles
    ensures |picks| == |deps| && updates == DeploymentEntries(deps, picks)
    ensures forall i :: 0 <= i < |deps| ==> Chosen(picks[i], listings, deps[i].bundle)
  {
    hide Compare, Chosen, Best, Within, DeploymentEntries;
    updates, picks := [], [];
    assert deps[..0] == [] && DeploymentEntries([], []) == [] by { NoEntries(); }
    var i := 0;
    while i < |deps|
      invariant 0 <= i <= |deps| && |picks| == i && updates == DeploymentEntries(deps[..i], picks)
      invariant forall k :: 0 <= k < i ==> Chosen(picks[k], listings, deps[k].bundle)
    {
      var d := deps[i];
      assert deps[..i + 1] == deps[..i] + [d];
      BestIsChosen(best, listings, bundles, d.bundle);
      ghost var pick := if d.bundle in best then Some(best[d.bundle]) else None;
      OneMoreDeployment(deps[..i], picks, d, pick);
      if d.bundle in best {
        var c := CompareVersions(best[d.bundle].version, d.version);
        if c > 0 { updates := updates + [ForDeployment(d, best[d.bundle])]; }
      }
      picks := picks + [pick];
      i := i + 1;
    }
    assert deps[..i] == deps;
  }

  /** The query and fold for one bundle outside the snapshot. */
  method NewestOf(listings: seq<Listing>, bundle: string) returns (pick: Option<Listing>)
    ensures Chosen(pick, listings, bundle)
  {
    var own := BestListings(Within(listings, [bundle]));
    BestIsChosen(own, listings, [bundle], bundle);
    return if bundle in own then Some(own[bundle]) else None;
  }

  /** The subscriptions part. */
  method ListSubscriptions(subs: seq<Subscription>, listings: seq<Listing>, bundles: seq<string>,
                           best: map<string, Listing>)
    returns (updates: seq<Entry>, ghost picks: seq<Option<Listing>>)
    requires Best(best, Within(listings, bundles))
    ensures |picks| == |subs| && updates == SubscriptionEntries(subs, picks)
    ensures forall i :: 0 <= i < |subs| ==> Chosen(picks[i], listings, subs[i].bundle)
  {
    hide Compare, Chosen, Best, Within, SubscriptionEntries;
    updates, picks := [], [];
    assert subs[..0] == [] && SubscriptionEntries([], []) == [] by { NoEntries(); }
    var i := 0;
    while i < |subs|
      invariant 0 <= i <= |subs| && |picks| == i && updates == SubscriptionEntries(subs[..i], picks)
      invariant forall k :: 0 <= k < i ==> Chosen(picks[k], listings, subs[k].bundle)
    {
      var s := subs[i];
      assert subs[..i + 1] == subs[..i] + [s];
      var pick: Option<Listing>;
      if s.bundle in best {
        BestIsChosen(best, listings, bundles, s.bundle) by { BestIsScoped(best, listings, bundles, s.bundle); }
        pick := Some(best[s.bundle]);
      } else {
        pick := NewestOf(listings, s.bundle);
      }
      var newer := true;
      if pick.Some? && s.seen != "" {
        var c := CompareVersions(pick.value.version, s.seen);
        newer := c > 0;
      }
      OneMoreSubscription(subs[..i], picks, s, pick);
      if pick.Some? && newer && pick.value.url != "" { updates := updates + [ForSubscription(s, pick.value)]; }
      picks := picks + [pick];
      i := i + 1;
    }
    assert subs[..i] == subs;
  }

  lemma BestIsScoped(best: map<string, Listing>, listings: seq<Listing>, bundles: seq<string>, bundle: string)
    requires Best(best, Within(listings, bundles)) && bundle in best
    ensures bundle in bundles
  {
    WithinMembers(listings, bundles);
  }

  /** What handleListUpdates answers: nothing at all when nothing is deployed, else
      the deployments' entries and then the subscriptions', each going by one of
      its bundle's newest listings. */
  ghost predicate Answers(deps: seq<Deployed>, listings: seq<Listing>, subs: seq<Subscription>, updates: seq<Entry>) {
    if deps == [] then updates == []
    else exists picks, offers :: AnswersWith(deps, listings, subs, updates, picks, offers)
  }

  ghost predicate AnswersWith(deps: seq<Deployed>, listings: seq<Listing>, subs: seq<Subscription>, updates: seq<Entry>,
                              picks: seq<Option<Listing>>, offers: seq<Option<Listing>>)
  {
    && |picks| == |deps| && |offers| == |subs|
    && (forall i :: 0 <= i < |deps| ==> Chosen(picks[i], listings, deps[i].bundle))
    && (forall i :: 0 <= i < |subs| ==> Chosen(offers[i], listings, subs[i].bundle))
    && updates == DeploymentEntries(deps, picks) + SubscriptionEntries(subs, offers)
  }

  method ListUpdates(deps: seq<Deployed>, listings: seq<Listing>, subs: seq<Subscription>) returns (updates: seq<Entry>)
    ensures Answers(deps, listings, subs, updates)
  {
    hide Chosen, Best, Within, DeploymentEntries, SubscriptionEntries;
    if |deps| == 0 { return []; }
    var bundles := Bundles(deps);
    var best := BestListings(Within(listings, bundles));
    ghost var picks, offers;
    updates, picks := ListDeployments(deps, listings, bundles, best);
    var more;
    more, offers := ListSubscriptions(subs, listings, bundles, best);
    updates := updates + more;
    assert AnswersWith(deps, listings, subs, updates, picks, offers);
  }

  lemma {:induction false} DeploymentMembers(deps: seq<Deployed>, picks: seq<Option<Listing>>, e: Entry)
    requires |picks| == |deps|
    ensures e in DeploymentEntries(deps, picks) <==>
      exists i :: 0 <= i < |deps| && Outdated(deps[i], picks[i]) && e == ForDeployment(deps[i], picks[i].value)
  {
    hide Compare, Outdated;
    if deps != [] {
      var n := |deps| - 1;
      DeploymentMembers(deps[..n], picks[..n], e);
      assert forall i :: 0 <= i < n ==> deps[..n][i] == deps[i] && picks[..n][i] == picks[i];
    }
  }

  lemma {:induction false} SubscriptionMembers(subs: seq<Subscription>, picks: seq<Option<Listing>>, e: Entry)
    requires |picks| == |subs|
    ensures e in SubscriptionEntries(subs, picks) <==>
      exists i :: 0 <= i < |subs| && Surfaces(subs[i], picks[i]) && e == ForSubscription(subs[i], picks[i].value)
  {
    hide Compare, Surfaces;
    if subs != [] {
      var n := |subs| - 1;
      SubscriptionMembers(subs[..n], picks[..n], e);
      assert forall i :: 0 <= i < n ==> subs[..n][i] == subs[i] && picks[..n][i] == picks[i];
    }
  }

  ghost predicate HasNewer(listings: seq<Listing>, bundle: string, version: string) {
    exists l :: l in listings && l.bundle == bundle && Compare(l.version, version) > 0
  }

  predicate AllFit(listings: seq<Listing>, bundle: string, version: string) {
    Fitting(version) && forall l :: l in listings && l.bundle == bundle ==> Fitting(l.version)
  }

  /** Whichever of the newest listings was chosen, it is newer than a version exactly
      when some listing is, if they all fit. */
  lemma ChosenDecides(pick: Option<Listing>, listings: seq<Listing>, bundle: string, version: string)
    requires Chosen(pick, listings, bundle)
    ensures pick.Some? && Compare(pick.value.version, version) > 0 ==> HasNewer(listings, bundle, version)
    ensures AllFit(listings, bundle, version) && HasNewer(listings, bundle, version) ==>
      pick.Some? && Compare(pick.value.version, version) > 0
  {
    hide Compare, Fitting;
    if AllFit(listings, bundle, version) && HasNewer(listings, bundle, version) {
      var l :| l in listings && l.bundle == bundle && Compare(l.version, version) > 0;
      assert l.version in VersionsFor(listings, bundle);
      if Compare(pick.value.version, version) <= 0 { Transitive(l.version, pick.value.version, version); }
    }
  }

  /** A deployment is listed exactly when some listing of its bundle is strictly
      newer, whatever the order of the rows, if those versions are fitting. */
  lemma ListedIffNewer(deps: seq<Deployed>, listings: seq<Listing>, subs: seq<Subscription>, updates: seq<Entry>,
                       d: Deployed)
    requires Answers(deps, listings, subs, updates) && d in deps
    ensures (exists l :: ForDeployment(d, l) in updates) ==> HasNewer(listings, d.bundle, d.version)
    ensures AllFit(listings, d.bundle, d.version) ==>
      ((exists l :: ForDeployment(d, l) in updates) <==> HasNewer(listings, d.bundle, d.version))
  {
    hide Compare, Fitting, Chosen, HasNewer, AllFit;
    var picks: seq<Option<Listing>>, offers: seq<Option<Listing>> :| AnswersWith(deps, listings, subs, updates,
        picks, offers);
    if l :| ForDeployment(d, l) in updates {
      DeploymentMembers(deps, picks, ForDeployment(d, l));
      SubscriptionMembers(subs, offers, ForDeployment(d, l));
      var i :| 0 <= i < |deps| && Outdated(deps[i], picks[i])
          && ForDeployment(d, l) == ForDeployment(deps[i], picks[i].value);
      ChosenDecides(picks[i], listings, d.bundle, d.version);
    }
    if AllFit(listings, d.bundle, d.version) && HasNewer(listings, d.bundle, d.version) {
      var i :| 0 <= i < |deps| && deps[i] == d;
      ChosenDecides(picks[i], listings, d.bundle, d.version);
      DeploymentMembers(deps, picks, ForDeployment(d, picks[i].value));
    }
  }

  /** There is something to show a subscriber: a listing newer than the one seen,
      or any listing if none was seen. */
  ghost predicate HasNews(listings: seq<Listing>, s: Subscription) {
    if s.seen == "" then exists l :: l in listings && l.bundle == s.bundle else HasNewer(listings, s.bundle, s.seen)
  }

  predicate AllDownloadable(listings: seq<Listing>, bundle: string) {
    forall l :: l in listings && l.bundle == bundle ==> l.url != ""
  }

  // ------------------------------------------- exactly when an update is missed

  /** Whatever the versions look like: a deployment is listed exactly if the leading
      listing of its bundle is newer, and with that listing. */
  lemma ListedExactly(deps: seq<Deployed>, listings: seq<Listing>, subs: seq<Subscription>, updates: seq<Entry>,
                      d: Deployed)
    requires Answers(deps, listings, subs, updates) && d in deps
    ensures forall l :: ForDeployment(d, l) in updates <==>
                          Lead(listings, d.bundle) == Some(l) && Compare(l.version, d.version) > 0
  {
    hide Compare, Newest, Lead;
    var picks: seq<Option<Listing>>, offers: seq<Option<Listing>> :| AnswersWith(deps, listings, subs, updates,
        picks, offers);
    var i :| 0 <= i < |deps| && deps[i] == d;
    forall l ensures ForDeployment(d, l) in updates <==>
                       Lead(listings, d.bundle) == Some(l) && Compare(l.version, d.version) > 0
    {
      DeploymentMembers(deps, picks, ForDeployment(d, l));
      SubscriptionMembers(subs, offers, ForDeployment(d, l));
      if Lead(listings, d.bundle) == Some(l) && Compare(l.version, d.version) > 0 {
        assert Outdated(deps[i], picks[i]) && ForDeployment(d, l) == ForDeployment(deps[i], picks[i].value);
      }
    }
  }

  /** The same for a subscription: it surfaces exactly if something is deployed and
      the leading listing of its bundle can be downloaded and is newer than the
      version seen, or none was seen. */
  lemma SurfacesExactly(deps: seq<Deployed>, listings: seq<Listing>, subs: seq<Subscription>, updates: seq<Entry>,
                        s: Subscription)
    requires Answers(deps, listings, subs, updates) && s in subs
    ensures forall l :: ForSubscription(s, l) in updates <==>
                          && deps != [] && Lead(listings, s.bundle) == Some(l) && l.url != ""
                          && (s.seen == "" || Compare(l.version, s.seen) > 0)
  {
    hide Compare, Newest, Lead;
    if deps != [] {
      var picks: seq<Option<Listing>>, offers: seq<Option<Listing>> :| AnswersWith(deps, listings, subs, updates,
          picks, offers);
      var i :| 0 <= i < |subs| && subs[i] == s;
      forall l ensures ForSubscription(s, l) in updates <==>
                         && Lead(listings, s.bundle) == Some(l) && l.url != ""
                         && (s.seen == "" || Compare(l.version, s.seen) > 0)
      {
        DeploymentMembers(deps, picks, ForSubscription(s, l));
        SubscriptionMembers(subs, offers, ForSubscription(s, l));
        if Surfaces(s, Some(l)) && offers[i] == Some(l) {
          assert ForSubscription(s, l) == ForSubscription(subs[i], offers[i].value);
        }
      }
    }
  }

  /** Deployments come before subscriptions, both in the order they were given. */
  lemma ListedInOrder(deps: seq<Deployed>, listings: seq<Listing>, subs: seq<Subscription>, updates: seq<Entry>)
    requires Answers(deps, listings, subs, updates)
    ensures exists places: seq<nat> ::
              && |places| == |updates| && (forall i, j :: 0 <= i < j < |places| ==> places[i] < places[j])
              && forall i :: 0 <= i < |places| ==>
                   && places[i] < |deps| + |subs|
                   && match updates[i]
                      case ForDeployment(d, _) => places[i] < |deps| && deps[places[i]] == d
                      case ForSubscription(s, _) => places[i] >= |deps| && subs[places[i] - |deps|] == s
  {
    hide Compare, Chosen;
    if deps == [] {
      var none: seq<nat> := [];
      assert |none| == |updates|;
    } else {
      var picks: seq<Option<Listing>>, offers: seq<Option<Listing>> :| AnswersWith(deps, listings, subs, updates,
          picks, offers);
      var first := DeploymentPlaces(deps, picks);
      var second := SubscriptionPlaces(subs, offers, |deps|);
      var places := first + second;
      assert |places| == |updates|;
    }
  }

  lemma {:induction false} DeploymentPlaces(deps: seq<Deployed>, picks: seq<Option<Listing>>)
    returns (places: seq<nat>)
    requires |picks| == |deps|
    ensures var es := DeploymentEntries(deps, picks);
            && |places| == |es| && (forall i, j :: 0 <= i < j < |places| ==> places[i] < places[j])
            && forall i :: 0 <= i < |places| ==>
                 es[i].ForDeployment? && places[i] < |deps| && deps[places[i]] == es[i].dep
  {
    places := [];
    if deps != [] {
      var n := |deps| - 1;
      places := DeploymentPlaces(deps[..n], picks[..n]);
      if Outdated(deps[n], picks[n]) { places := places + [n]; }
    }
  }

  lemma {:induction false} SubscriptionPlaces(subs: seq<Subscription>, picks: seq<Option<Listing>>, from: nat)
    returns (places: seq<nat>)
    requires |picks| == |subs|
    ensures var es := SubscriptionEntries(subs, picks);
            && |places| == |es| && (forall i, j :: 0 <= i < j < |places| ==> places[i] < places[j])
            && forall i :: 0 <= i < |places| ==>
                 es[i].ForSubscription? && from <= places[i] < from + |subs| && subs[places[i] - from] == es[i].sub
  {
    places := [];
    if subs != [] {
      var n := |subs| - 1;
      places := SubscriptionPlaces(subs[..n], picks[..n], from);
      if Surfaces(subs[n], picks[n]) { places := places + [from + n]; }
    }
  }

  /** Row k takes the lead of its bundle when its turn comes. */
  predicate TakesLead(listings: seq<Listing>, k: nat, bundle: string) {
    k < |listings| && listings[k].bundle == bundle
    && (Lead(listings[..k], bundle).None? || Compare(listings[k].version,
        Lead(listings[..k], bundle).value.version) > 0)
  }

  /** From row k on no row newer than the version takes the lead. */
  predicate NoneNewerAfter(listings: seq<Listing>, k: nat, bundle: string, version: string) {
    forall j: nat :: k < j < |listings| && TakesLead(listings, j, bundle) ==> Compare(listings[j].version, version) <= 0
  }

  /** Row k takes the lead without being newer than the version, and afterwards no
      newer row takes it. */
  predicate Spoils(listings: seq<Listing>, k: nat, bundle: string, version: string) {
    TakesLead(listings, k, bundle) && Compare(listings[k].version, version) <= 0
        && NoneNewerAfter(listings, k, bundle, version)
  }

  lemma TakesLeadFront(listings: seq<Listing>, k: nat, bundle: string)
    requires k < |listings| - 1
    ensures TakesLead(listings, k, bundle) <==> TakesLead(listings[..|listings| - 1], k, bundle)
  {
    assert listings[..|listings| - 1][..k] == listings[..k];
  }

  /** The leading row is the last that took the lead. */
  lemma {:induction false} LastToLead(listings: seq<Listing>, bundle: string) returns (k: nat)
    requires Lead(listings, bundle).Some?
    ensures TakesLead(listings, k, bundle) && Lead(listings, bundle) == Some(listings[k])
    ensures forall j: nat :: k < j < |listings| ==> !TakesLead(listings, j, bundle)
  {
    hide Compare;
    var n := |listings| - 1;
    if TakesLead(listings, n, bundle) {
      k := n;
    } else {
      k := LastToLead(listings[..n], bundle);
      TakesLeadFront(listings, k, bundle);
      forall j: nat | k < j < |listings| ensures !TakesLead(listings, j, bundle) {
        if j < n { TakesLeadFront(listings, j, bundle); }
      }
    }
  }

  lemma {:induction false} ListedLeads(listings: seq<Listing>, l: Listing)
    requires l in listings
    ensures Lead(listings, l.bundle).Some?
  {
    hide Compare;
    var front := listings[..|listings| - 1];
    if l in front { ListedLeads(front, l); }
  }

  /** A newer listing is missed if and only if, in the order the rows came, some row
      that is not newer took the lead and no newer row took it again. */
  lemma MissedExactly(deps: seq<Deployed>, listings: seq<Listing>, subs: seq<Subscription>, updates: seq<Entry>,
                      d: Deployed)
    requires Answers(deps, listings, subs, updates) && d in deps && HasNewer(listings, d.bundle, d.version)
    ensures (forall l :: ForDeployment(d, l) !in updates) <==> exists k: nat :: Spoils(listings, k, d.bundle, d.version)
  {
    hide Compare, Answers, Lead, TakesLead;
    var l :| l in listings && l.bundle == d.bundle && Compare(l.version, d.version) > 0;
    ListedExactly(deps, listings, subs, updates, d);
    ListedLeads(listings, l);
    var last := LastToLead(listings, d.bundle);
    assert last < |listings| by { LeadsAreRows(listings, last, d.bundle); }
    if Compare(listings[last].version, d.version) <= 0 {
      assert Spoils(listings, last, d.bundle, d.version);
    }
    if k: nat :| Spoils(listings, k, d.bundle, d.version) {
      assert k <= last by { LeadsAreRows(listings, k, d.bundle); }
    }
  }

  lemma LeadsAreRows(listings: seq<Listing>, k: nat, bundle: string)
    requires TakesLead(listings, k, bundle)
    ensures k < |listings|
  {
  }

  /** Every version newer than v beats every other. */
  predicate Separates(versions: set<string>, v: string) {
    forall x, y :: x in versions && y in versions && Compare(x, v) > 0 && Compare(y, v) <= 0 ==> Compare(y, x) < 0
  }

  /** The leading listing of the bundle is newer than v whenever some listing is. */
  ghost predicate NeverMisses(listings: seq<Listing>, bundle: string, v: string) {
    HasNewer(listings, bundle, v) ==>
      Lead(listings, bundle).Some? && Compare(Lead(listings, bundle).value.version, v) > 0
  }

  lemma {:induction false} SeparatedLead(listings: seq<Listing>, bundle: string, v: string)
    requires Separates(VersionsFor(listings, bundle), v)
    ensures NeverMisses(listings, bundle, v)
  {
    hide Compare;
    if listings != [] {
      var front, l := listings[..|listings| - 1], listings[|listings| - 1];
      assert listings == front + [l];
      assert VersionsFor(front, bundle) <= VersionsFor(listings, bundle);
      SeparatedLead(front, bundle, v);
      LeadIsListed(front, bundle);
      if l.bundle == bundle && Lead(front, bundle).Some? {
        var lead := Lead(front, bundle).value;
        assert l.version in VersionsFor(listings, bundle) && lead.version in VersionsFor(listings, bundle);
        Antisymmetric(l.version, lead.version);
        if Compare(l.version, v) > 0 && Compare(lead.version, v) <= 0 { assert Compare(lead.version, l.version) < 0; }
        if Compare(lead.version, v) > 0 && Compare(l.version, v) <= 0 { assert Compare(l.version, lead.version) < 0; }
      }
    }
  }

  lemma {:induction false} LeadIsListed(listings: seq<Listing>, bundle: string)
    ensures Lead(listings, bundle).Some? ==>
        Lead(listings, bundle).value in listings && Lead(listings, bundle).value.bundle == bundle
  {
    hide Compare;
    if listings != [] { LeadIsListed(listings[..|listings| - 1], bundle); }
  }

  lemma LeadOfTwo(a: Listing, b: Listing)
    requires a.bundle == b.bundle == "app"
    ensures Lead([a, b], "app") == Some(if Compare(b.version, a.version) > 0 then b else a)
  {
    hide Compare, Lead;
    assert Lead([], "app") == None by { NothingLeads("app"); }
    LeadStep([], a, "app");
    LeadStep([a], b, "app");
    assert [] + [a] == [a] && [a] + [b] == [a, b];
  }

  lemma NothingLeads(bundle: string)
    ensures Lead([], bundle) == None
  {
  }

  /** Two listings of which one is newer than v, and does not beat the other, which
      is not: in one of the two orders the newer is missed. */
  lemma TwoMiss(x: string, y: string, v: string) returns (listings: seq<Listing>)
    requires Compare(x, v) > 0 && Compare(y, v) <= 0 && Compare(y, x) >= 0
    ensures VersionsFor(listings, "app") <= {x, y} && !NeverMisses(listings, "app", v)
  {
    hide Compare, Lead, HasNewer;
    Antisymmetric(x, y);
    var a, b := Listing("app", x, "u"), Listing("app", y, "u");
    listings := if Compare(y, x) > 0 then [a, b] else [b, a];
    LeadOfTwo(a, b);
    LeadOfTwo(b, a);
    IsNewer(listings, a, v);
  }

  lemma IsNewer(listings: seq<Listing>, l: Listing, v: string)
    requires l in listings && Compare(l.version, v) > 0
    ensures HasNewer(listings, l.bundle, v)
  {
  }

  /** No selection and no order of listings with these versions makes the fold miss
      an update over v, if and only if every version newer than v beats every other. */
  lemma OrdersNeverMiss(versions: set<string>, v: string)
    ensures (forall listings :: VersionsFor(listings, "app") <= versions ==> NeverMisses(listings, "app", v))
            <==> Separates(versions, v)
  {
    hide Compare, NeverMisses;
    if Separates(versions, v) {
      forall listings | VersionsFor(listings, "app") <= versions ensures NeverMisses(listings, "app", v) {
        SeparatedLead(listings, "app", v);
      }
    } else {
      var x, y :| x in versions && y in versions && Compare(x, v) > 0 && Compare(y, v) <= 0 && Compare(y, x) >= 0;
      var listings := TwoMiss(x, y, v);
    }
  }

  /** Fitting versions are among those. */
  lemma FittingSeparates(versions: set<string>, v: string)
    requires Fitting(v) && forall x :: x in versions ==> Fitting(x)
    ensures Separates(versions, v)
  {
    hide Compare, Fitting;
    forall x, y | x in versions && y in versions && Compare(x, v) > 0 && Compare(y, v) <= 0 ensures Compare(y, x) < 0 {
      Antisymmetric(x, y);
      if Compare(x, y) <= 0 { Transitive(x, y, v); }
    }
  }

  /** A subscription surfaces only if something is deployed and there is news for
      it; and then it does, if the versions fit and the listings can be downloaded. */
  lemma SurfacesIffNewer(deps: seq<Deployed>, listings: seq<Listing>, subs: seq<Subscription>, updates: seq<Entry>,
                         s: Subscription)
    requires Answers(deps, listings, subs, updates) && s in subs
    ensures (exists l :: ForSubscription(s, l) in updates) ==> deps != [] && HasNews(listings, s)
    ensures AllFit(listings, s.bundle, s.seen) && AllDownloadable(listings, s.bundle) ==>
      ((exists l :: ForSubscription(s, l) in updates) <==> deps != [] && HasNews(listings, s))
  {
    hide Compare, Fitting, HasNewer, AllFit, Newest;
    if deps != [] {
      var picks: seq<Option<Listing>>, offers: seq<Option<Listing>> :| AnswersWith(deps, listings, subs, updates,
          picks, offers);
      if l :| ForSubscription(s, l) in updates {
        DeploymentMembers(deps, picks, ForSubscription(s, l));
        SubscriptionMembers(subs, offers, ForSubscription(s, l));
        var i :| 0 <= i < |subs| && Surfaces(subs[i], offers[i])
            && ForSubscription(s, l) == ForSubscription(subs[i], offers[i].value);
        ChosenDecides(offers[i], listings, s.bundle, s.seen);
      }
      var i :| 0 <= i < |subs| && subs[i] == s;
      ChosenDecides(offers[i], listings, s.bundle, s.seen);
      if Surfaces(s, offers[i]) { SubscriptionMembers(subs, offers, ForSubscription(s, offers[i].value)); }
    }
  }

  /** With other segments an update can be missed: 9 is newer than the deployed 1a,
      but the fold settled on 10, which is not. */
  lemma MissedUpdate()
    ensures var listings, d := [Listing("app", "9", "u"), Listing("app", "10", "u")], Deployed(0, "app", "1a");
            HasNewer(listings, d.bundle, d.version) && Answers([d], listings, [], [])
  {
    hide Lead, Compare, Newest, Fitting;
    NotTransitive();
    Antisymmetric("1a", "9");
    Antisymmetric("10", "1a");
    Antisymmetric("9", "10");
    var listings, d := [Listing("app", "9", "u"), Listing("app", "10", "u")], Deployed(0, "app", "1a");
    LeadOfTwo(listings[0], listings[1]);
    LeadOfTwoIsChosen(listings);
    IsNewer(listings, listings[0], "1a");
    var picks: seq<Option<Listing>> := [Some(listings[1])];
    assert [d][..0] == [] && picks[..0] == [] && DeploymentEntries([], []) == [];
    assert AnswersWith([d], listings, [], [], picks, []);
  }

  lemma LeadOfTwoIsChosen(listings: seq<Listing>)
    requires listings == [Listing("app", "9", "u"), Listing("app", "10", "u")]
    requires Compare("10", "9") > 0 && Lead(listings, "app") == Some(listings[1])
    ensures Chosen(Some(listings[1]), listings, "app")
  {
    hide Lead, Compare;
    SameVersion("10");
    Antisymmetric("9", "10");
    assert VersionsFor(listings, "app") == {"9", "10"};
  }

  /** With nothing deployed, no subscription surfaces, whatever the catalogue offers. */
  lemma NothingDeployedNothingListed()
    ensures var listings, s := [Listing("app", "2", "u")], Subscription("app", "1");
            forall updates :: Answers([], listings, [s], updates) ==> updates == []
    ensures HasNewer([Listing("app", "2", "u")], "app", "1")
  {
    OneField("2");
    OneField("1");
    Unfold(["2"], ["1"], 0);
    assert Listing("app", "2", "u") in [Listing("app", "2", "u")];
  }
}
