/**
 The grouped alert summary: a page of projected alerts is grouped by name,
 shared fields move to the group and per-peer summaries may become one template.
 A reader undoes all of it with `ExpandAll`.
 */
module AlertGroups {
  import opened Wrappers
  import opened CanonicalJson
  import opened SummaryTemplate

  /** The keys of a projected alert object. */
  datatype Field = AlertName | HostName | Unit | Severity | StartsAt | Fingerprint | Summary | PeerName

  type Alert = map<Field, Value>

  /** The fields a group may take over from its peers, in the order they are tried. */
  const FIELDS: seq<Field> := [HostName, Unit, Severity, StartsAt, Summary]

  function Get(a: Alert, field: Field): (v: Value) { if field in a then a[field] else VNull }

  function TextField(a: Alert, field: Field): (s: Option<string>) {
    var v := Get(a, field);
    if v.VStr? then Some(v.text) else None
  }

  /** What the projection of a page entry always provides. */
  predicate Projected(a: Alert) {
    && (forall f :: f in FIELDS ==> f in a)
    && a[Summary].VStr?
    && AlertName in a && (a[AlertName].VStr? || a[AlertName].VNull?)
  }

  predicate Named(a: Alert) { AlertName in a && a[AlertName].VStr? }

  function GroupName(a: Alert): (s: string) {
    var name := TextField(a, AlertName);
    if name.Some? then name.value else "unknown"
  }

  datatype Bucket = Bucket(name: string, peers: seq<Alert>)

  datatype Group = Group(alertname: string, count: nat, template: Option<string>, shared: Alert, peers: seq<Alert>)

  // ---------------------------------------------------------------- what a reader does

  /** A peer inherits what it lacks from its group and expands the template with its own names. */
  function ExpandPeer(g: Group, peer: Alert): (a: Alert) {
    var merged := g.shared + peer;
    var named := merged[AlertName := VStr(g.alertname)];
    var host, other := TextField(merged, HostName), TextField(merged, PeerName);
    if g.template.Some? && host.Some? && other.Some?
    then named[Summary := VStr(Expand(g.template.value, Names(host.value, other.value)))]
    else named
  }

  function ExpandGroup(g: Group): (s: seq<Alert>) {
    seq(|g.peers|, i requires 0 <= i < |g.peers| => ExpandPeer(g, g.peers[i]))
  }

  function ExpandAll(groups: seq<Group>): (s: seq<Alert>) {
    if groups == [] then [] else ExpandAll(groups[..|groups| - 1]) + ExpandGroup(groups[|groups| - 1])
  }

  // ---------------------------------------------------------------- grouping

  function Flatten(buckets: seq<Bucket>): (s: seq<Alert>) {
    if buckets == [] then [] else buckets[0].peers + Flatten(buckets[1..])
  }

  predicate GoodBucket(b: Bucket) {
    b.peers != [] && forall i :: 0 <= i < |b.peers| ==> Projected(b.peers[i]) && GroupName(b.peers[i]) == b.name
  }

  predicate GoodBuckets(buckets: seq<Bucket>) {
    && (forall i :: 0 <= i < |buckets| ==> GoodBucket(buckets[i]))
    && (forall i, j :: 0 <= i < j < |buckets| ==> Below(buckets[i].name, buckets[j].name))
  }

  /** The entry of an ordered map, appended to or inserted in name order. */
  function AddTo(buckets: seq<Bucket>, a: Alert): (r: seq<Bucket>) {
    var name := GroupName(a);
    if buckets == [] then [Bucket(name, [a])]
    else if buckets[0].name == name then [Bucket(name, buckets[0].peers + [a])] + buckets[1..]
    else if Below(name, buckets[0].name) then [Bucket(name, [a])] + buckets
    else [buckets[0]] + AddTo(buckets[1..], a)
  }

  lemma {:induction false} AddToKeepsAlerts(buckets: seq<Bucket>, a: Alert)
    ensures multiset(Flatten(AddTo(buckets, a))) == multiset(Flatten(buckets)) + multiset{a}
    decreases |buckets|
  {
    if buckets != [] && buckets[0].name != GroupName(a) && !Below(GroupName(a), buckets[0].name) {
      AddToKeepsAlerts(buckets[1..], a);
      assert AddTo(buckets, a)[1..] == AddTo(buckets[1..], a);
    } else if buckets != [] && buckets[0].name == GroupName(a) {
      assert AddTo(buckets, a)[1..] == buckets[1..];
    } else if buckets != [] {
      assert AddTo(buckets, a)[1..] == buckets;
    }
  }

  /** Names of the result: the old ones and the alert's. */
  lemma {:induction false} AddToNames(buckets: seq<Bucket>, a: Alert, b: Bucket)
    requires b in AddTo(buckets, a)
    ensures b.name == GroupName(a) || exists c :: c in buckets && c.name == b.name
    decreases |buckets|
  {
    if buckets != [] && b !in buckets && buckets[0].name != GroupName(a) && !Below(GroupName(a), buckets[0].name) {
      AddToNames(buckets[1..], a, b);
    }
  }

  ghost predicate AllAbove(name: string, buckets: seq<Bucket>) {
    forall j :: 0 <= j < |buckets| ==> Below(name, buckets[j].name)
  }

  lemma ConsIsGood(b: Bucket, buckets: seq<Bucket>)
    requires GoodBucket(b) && GoodBuckets(buckets) && AllAbove(b.name, buckets)
    ensures GoodBuckets([b] + buckets)
  {
  }

  lemma TailIsGood(buckets: seq<Bucket>)
    requires GoodBuckets(buckets) && buckets != []
    ensures GoodBucket(buckets[0]) && GoodBuckets(buckets[1..]) && AllAbove(buckets[0].name, buckets[1..])
  {
  }

  lemma GrownBucket(b: Bucket, a: Alert)
    requires GoodBucket(b) && Projected(a) && GroupName(a) == b.name
    ensures GoodBucket(Bucket(b.name, b.peers + [a]))
  {
  }

  lemma {:induction false} AddToIsGood(buckets: seq<Bucket>, a: Alert)
    requires GoodBuckets(buckets) && Projected(a)
    ensures GoodBuckets(AddTo(buckets, a))
    decreases |buckets|
  {
    var name := GroupName(a);
    if buckets != [] {
      var first, rest := buckets[0], buckets[1..];
      TailIsGood(buckets);
      if first.name == name {
        GrownBucket(first, a);
        ConsIsGood(Bucket(name, first.peers + [a]), rest);
      } else if Below(name, first.name) {
        forall j | 0 <= j < |buckets| ensures Below(name, buckets[j].name) {
          if j > 0 {
            BelowTransitive(name, first.name, buckets[j].name);
          }
        }
        ConsIsGood(Bucket(name, [a]), buckets);
      } else {
        BelowTotal(name, first.name);
        AddToIsGood(rest, a);
        forall j | 0 <= j < |AddTo(rest, a)| ensures Below(first.name, AddTo(rest, a)[j].name) {
          AddToNames(rest, a, AddTo(rest, a)[j]);
        }
        ConsIsGood(first, AddTo(rest, a));
      }
    }
  }

  lemma AddNext(buckets: seq<Bucket>, page: seq<Alert>, i: nat)
    requires i < |page|
    requires multiset(Flatten(buckets)) == multiset(page[..i])
    ensures multiset(Flatten(AddTo(buckets, page[i]))) == multiset(page[..i + 1])
  {
    AddToKeepsAlerts(buckets, page[i]);
    assert page[..i + 1] == page[..i] + [page[i]];
  }

  /** Groups come out in name order, nonempty, and hold every alert of the page exactly once. */
  method GroupByName(page: seq<Alert>) returns (buckets: seq<Bucket>)
    requires forall i :: 0 <= i < |page| ==> Projected(page[i])
    ensures GoodBuckets(buckets) && multiset(Flatten(buckets)) == multiset(page)
  {
    buckets := [];
    for i := 0 to |page|
      invariant GoodBuckets(buckets) && multiset(Flatten(buckets)) == multiset(page[..i])
    {
      AddNext(buckets, page, i);
      AddToIsGood(buckets, page[i]);
      buckets := AddTo(buckets, page[i]);
    }
    assert page[..|page|] == page;
  }

  // ---------------------------------------------------------------- hoisting

  function Without(peers: seq<Alert>, field: Field): (r: seq<Alert>)
    ensures |r| == |peers| && forall i :: 0 <= i < |peers| ==> r[i] == peers[i] - {field}
  {
    seq(|peers|, i requires 0 <= i < |peers| => peers[i] - {field})
  }

  /** Present in the first peer and identical in all. */
  predicate SharedBy(peers: seq<Alert>, field: Field)
    requires peers != []
  {
    field in peers[0] && forall i :: 0 <= i < |peers| ==> Get(peers[i], field) == Get(peers[0], field)
  }

  /** Exactly the shared fields move to the group, and every peer can take them back. */
  method HoistFields(peers: seq<Alert>) returns (shared: Alert, rest: seq<Alert>)
    requires peers != []
    requires forall i, f :: 0 <= i < |peers| && f in FIELDS && f in peers[0] ==> f in peers[i]
    ensures forall f :: f in shared <==> f in FIELDS && SharedBy(peers, f)
    ensures |rest| == |peers| && forall i :: 0 <= i < |peers| ==> rest[i] == peers[i] - shared.Keys
    ensures forall i :: 0 <= i < |peers| ==> shared + rest[i] == peers[i]
  {
    shared, rest := map[], peers;
    for k := 0 to |FIELDS|
      invariant forall f :: f in shared <==> f in FIELDS[..k] && SharedBy(peers, f)
      invariant forall f :: f in shared ==> shared[f] == peers[0][f]
      invariant |rest| == |peers| && forall i :: 0 <= i < |peers| ==> rest[i] == peers[i] - shared.Keys
    {
      var field := FIELDS[k];
      assert field !in FIELDS[..k];
      assert FIELDS[..k + 1] == FIELDS[..k] + [field];
      assert SharedBy(rest, field) <==> SharedBy(peers, field) by { SameShared(peers, rest, shared.Keys, field); }
      if SharedBy(rest, field) {
        ghost var before := shared;
        shared := shared[field := rest[0][field]];
        rest := Without(rest, field);
        assert shared.Keys == before.Keys + {field};
      }
    }
    assert FIELDS[..|FIELDS|] == FIELDS;
    forall i | 0 <= i < |peers| ensures shared + rest[i] == peers[i] {
      MergeBack(peers, shared, i);
    }
  }

  lemma SameShared(peers: seq<Alert>, rest: seq<Alert>, gone: set<Field>, field: Field)
    requires peers != [] && |rest| == |peers| && field !in gone
    requires forall i :: 0 <= i < |peers| ==> rest[i] == peers[i] - gone
    ensures SharedBy(rest, field) <==> SharedBy(peers, field)
  {
    assert forall i :: 0 <= i < |peers| ==> Get(rest[i], field) == Get(peers[i], field);
  }

  lemma MergeBack(peers: seq<Alert>, shared: Alert, i: nat)
    requires peers != [] && i < |peers|
    requires forall f :: f in shared ==> f in peers[i] && SharedBy(peers, f) && shared[f] == peers[0][f]
    ensures shared + (peers[i] - shared.Keys) == peers[i]
  {
    forall f | f in shared ensures shared[f] == peers[i][f] {
      assert Get(peers[i], f) == Get(peers[0], f);
    }
  }

  // ---------------------------------------------------------------- one group

  function TemplateOf(a: Alert): (t: Option<string>) {
    var summary := TextField(a, Summary);
    if summary.None? then None else TemplateSpec(summary.value, TextField(a, HostName), TextField(a, PeerName))
  }

  method TemplateOfAlert(a: Alert) returns (t: Option<string>)
    ensures t == TemplateOf(a)
  {
    var summary := TextField(a, Summary);
    if summary.None? {
      return None;
    }
    t := SummaryTemplateOf(summary.value, TextField(a, HostName), TextField(a, PeerName));
  }

  predicate SameTemplate(peers: seq<Alert>, template: Option<string>) {
    forall i :: 0 <= i < |peers| ==> TemplateOf(peers[i]) == template
  }

  predicate SummariesDiffer(peers: seq<Alert>)
    requires peers != []
  {
    exists i :: 0 <= i < |peers| && Get(peers[i], Summary) != Get(peers[0], Summary)
  }

  /** One short template for all peers, where their summaries differ. */
  predicate UsesTemplate(peers: seq<Alert>, template: string)
    requires peers != []
  {
    |template| <= 200 && SameTemplate(peers, Some(template)) && SummariesDiffer(peers)
  }

  method CommonTemplate(peers: seq<Alert>) returns (t: Option<string>)
    requires peers != []
    ensures t.Some? ==> UsesTemplate(peers, t.value)
    ensures t.None? ==> forall template :: !UsesTemplate(peers, template)
  {
    var first := TemplateOfAlert(peers[0]);
    var same := AllHaveTemplate(peers, first);
    assert forall template :: SameTemplate(peers, template) ==> template == first;
    t := if first.Some? && |first.value| <= 200 && same && SummariesDiffer(peers) then first else None;
  }

  method AllHaveTemplate(peers: seq<Alert>, template: Option<string>) returns (same: bool)
    ensures same == SameTemplate(peers, template)
  {
    same := true;
    for i := 0 to |peers|
      invariant same <==> forall j :: 0 <= j < i ==> TemplateOf(peers[j]) == template
    {
      var next := TemplateOfAlert(peers[i]);
      same := same && next == template;
    }
  }

  /** What the reader gets for an alert: its group name in place of a missing one. */
  function Renamed(a: Alert): (r: Alert) { a[AlertName := VStr(GroupName(a))] }

  /** Expanding a group gives its alerts back, in order. */
  method CompressGroup(b: Bucket) returns (g: Group)
    requires GoodBucket(b)
    ensures g.alertname == b.name && g.count == |b.peers| == |g.peers|
    ensures |ExpandGroup(g)| == |b.peers| && forall i :: 0 <= i < |b.peers| ==> ExpandGroup(g)[i] == Renamed(b.peers[i])
  {
    var template := CommonTemplate(b.peers);
    var peers := Cut(b.peers, template);
    CutIsUniform(b, peers, template);
    var shared, rest := HoistFields(peers);
    g := Group(b.name, |peers|, template, shared, Without(rest, AlertName));
    GroupExpands(b, g, peers, rest);
  }

  /** The peers without their summaries, where a template stands for them. */
  function Cut(peers: seq<Alert>, template: Option<string>): (r: seq<Alert>)
    ensures |r| == |peers|
  {
    if template.Some? then Without(peers, Summary) else peers
  }

  lemma CutIsUniform(b: Bucket, peers: seq<Alert>, template: Option<string>)
    requires GoodBucket(b) && peers == Cut(b.peers, template)
    ensures forall i, f :: 0 <= i < |peers| && f in FIELDS && f in peers[0] ==> f in peers[i]
  {
    forall i, f | 0 <= i < |peers| && f in FIELDS && f in peers[0] ensures f in peers[i] {
      assert Projected(b.peers[i]);
    }
  }

  lemma GroupExpands(b: Bucket, g: Group, peers: seq<Alert>, rest: seq<Alert>)
    requires GoodBucket(b) && g.alertname == b.name && AlertName !in g.shared && |peers| == |rest| == |b.peers|
    requires peers == Cut(b.peers, g.template)
    requires g.template.Some? ==> UsesTemplate(b.peers, g.template.value)
    requires forall i :: 0 <= i < |peers| ==> g.shared + rest[i] == peers[i]
    requires g.peers == Without(rest, AlertName)
    ensures |ExpandGroup(g)| == |b.peers| && forall i :: 0 <= i < |b.peers| ==> ExpandGroup(g)[i] == Renamed(b.peers[i])
  {
    forall i | 0 <= i < |b.peers| ensures ExpandGroup(g)[i] == Renamed(b.peers[i]) {
      assert GroupName(b.peers[i]) == b.name;
      assert g.template.Some? ==> TemplateOf(b.peers[i]) == g.template;
      ExpandsBack(g, b.peers[i], peers[i], rest[i]);
    }
  }

  lemma ExpandsBack(g: Group, a: Alert, cut: Alert, rest: Alert)
    requires GroupName(a) == g.alertname && AlertName !in g.shared && g.shared + rest == cut
    requires cut == if g.template.Some? then a - {Summary} else a
    requires g.template.Some? ==> TemplateOf(a) == g.template
    ensures ExpandPeer(g, rest - {AlertName}) == Renamed(a)
  {
    MergedPeer(g.shared, rest, cut);
    if g.template.Some? {
      TemplatedPeer(g, a, rest - {AlertName});
    } else {
      PlainPeer(g, a, rest - {AlertName});
    }
  }

  lemma MergedPeer(shared: Alert, rest: Alert, peer: Alert)
    requires shared + rest == peer && AlertName !in shared
    ensures shared + (rest - {AlertName}) == peer - {AlertName}
  {
  }

  lemma PlainPeer(g: Group, a: Alert, peer: Alert)
    requires g.template.None? && g.shared + peer == a - {AlertName} && GroupName(a) == g.alertname
    ensures ExpandPeer(g, peer) == Renamed(a)
  {
  }

  lemma TemplatedPeer(g: Group, a: Alert, peer: Alert)
    requires g.template.Some? && TemplateOf(a) == g.template && GroupName(a) == g.alertname
    requires g.shared + peer == a - {Summary} - {AlertName}
    ensures ExpandPeer(g, peer) == Renamed(a)
  {
    var merged := g.shared + peer;
    assert Get(merged, HostName) == Get(a, HostName) && Get(merged, PeerName) == Get(a, PeerName);
    TemplateHasNames(a, g.template.value);
    RestoredFields(a, merged, g.alertname);
  }

  /** An alert with a template has both names and expands to its summary. */
  lemma TemplateHasNames(a: Alert, template: string)
    requires TemplateOf(a) == Some(template)
    ensures TextField(a, HostName).Some? && TextField(a, PeerName).Some? && Summary in a && a[Summary].VStr?
    ensures a[Summary].text == Expand(template, Names(TextField(a, HostName).value, TextField(a, PeerName).value))
  {
    TemplateIsLossless(TextField(a, Summary).value, TextField(a, HostName), TextField(a, PeerName));
  }

  lemma RestoredFields(a: Alert, merged: Alert, name: string)
    requires merged == a - {Summary} - {AlertName} && Summary in a && GroupName(a) == name
    ensures merged[AlertName := VStr(name)][Summary := a[Summary]] == Renamed(a)
  {
  }

  // ---------------------------------------------------------------- the whole page

  function RenamedAll(alerts: seq<Alert>): (r: seq<Alert>)
    ensures |r| == |alerts| && forall i :: 0 <= i < |r| ==> r[i] == Renamed(alerts[i])
  {
    seq(|alerts|, i requires 0 <= i < |alerts| => Renamed(alerts[i]))
  }

  lemma {:induction false} FlattenPrefix(buckets: seq<Bucket>, n: nat)
    requires n < |buckets|
    ensures Flatten(buckets[..n + 1]) == Flatten(buckets[..n]) + buckets[n].peers
    decreases n
  {
    if n == 0 {
      assert buckets[..1] == [buckets[0]] && [buckets[0]][1..] == [];
    } else {
      FlattenPrefix(buckets[1..], n - 1);
      assert buckets[..n + 1][1..] == buckets[1..][..n] && buckets[..n][1..] == buckets[1..][..n - 1];
    }
  }

  lemma ExpandStep(groups: seq<Group>, g: Group, buckets: seq<Bucket>, n: nat)
    requires n < |buckets| && ExpandAll(groups) == RenamedAll(Flatten(buckets[..n]))
    requires |ExpandGroup(g)| == |buckets[n].peers|
    requires forall i :: 0 <= i < |buckets[n].peers| ==> ExpandGroup(g)[i] == Renamed(buckets[n].peers[i])
    ensures ExpandAll(groups + [g]) == RenamedAll(Flatten(buckets[..n + 1]))
  {
    var before, peers := Flatten(buckets[..n]), buckets[n].peers;
    FlattenPrefix(buckets, n);
    assert (groups + [g])[..|groups|] == groups;
    assert ExpandGroup(g) == RenamedAll(peers);
    RenamedAppend(before, peers);
  }

  lemma RenamedAppend(a: seq<Alert>, b: seq<Alert>)
    ensures RenamedAll(a + b) == RenamedAll(a) + RenamedAll(b)
  {
  }

  /**
   A reader recovers exactly the page, every alert once, if and only if every
   alert of the page carries a name.
   */
  method Summarize(page: seq<Alert>) returns (groups: seq<Group>)
    requires forall i :: 0 <= i < |page| ==> Projected(page[i])
    ensures multiset(ExpandAll(groups)) == multiset(page) <==> forall i :: 0 <= i < |page| ==> Named(page[i])
    ensures |ExpandAll(groups)| == |page|
    ensures forall i, j :: 0 <= i < j < |groups| ==> Below(groups[i].alertname, groups[j].alertname)
  {
    var buckets := GroupByName(page);
    groups := [];
    for n := 0 to |buckets|
      invariant |groups| == n && forall i :: 0 <= i < n ==> groups[i].alertname == buckets[i].name
      invariant ExpandAll(groups) == RenamedAll(Flatten(buckets[..n]))
    {
      assert GoodBucket(buckets[n]);
      var g := CompressGroup(buckets[n]);
      ExpandStep(groups, g, buckets, n);
      groups := groups + [g];
    }
    assert buckets[..|buckets|] == buckets;
    ExpandedPage(ExpandAll(groups), Flatten(buckets), page);
  }

  lemma ExpandedPage(expanded: seq<Alert>, flat: seq<Alert>, page: seq<Alert>)
    requires expanded == RenamedAll(flat) && multiset(flat) == multiset(page)
    ensures |expanded| == |page|
    ensures multiset(expanded) == multiset(page) <==> forall i :: 0 <= i < |page| ==> Named(page[i])
  {
    assert |flat| == |multiset(flat)| == |multiset(page)| == |page|;
    RenamingKeepsNamed(flat, page);
  }

  /** Renaming is the identity exactly on pages where every alert has a name. */
  lemma RenamingKeepsNamed(flat: seq<Alert>, page: seq<Alert>)
    requires multiset(flat) == multiset(page)
    ensures multiset(RenamedAll(flat)) == multiset(page) <==> forall i :: 0 <= i < |page| ==> Named(page[i])
  {
    if forall i :: 0 <= i < |page| ==> Named(page[i]) {
      forall i | 0 <= i < |flat| ensures Renamed(flat[i]) == flat[i] {
        assert flat[i] in multiset(page);
        assert Named(flat[i]);
      }
      assert RenamedAll(flat) == flat;
    } else {
      var i :| 0 <= i < |page| && !Named(page[i]);
      assert page[i] in multiset(page);
      assert page[i] !in RenamedAll(flat);
    }
  }

  /** A page entry without a name. */
  const NAMELESS: Alert := map[
    AlertName := VNull, HostName := VStr("a"), Unit := VNull, Severity := VNull, StartsAt := VNull, Summary := VStr("down")]

  /** Every alert a reader gets from groups has a name. */
  lemma {:induction false} ExpandedAreNamed(groups: seq<Group>, a: Alert)
    requires a in ExpandAll(groups)
    ensures Named(a)
    decreases |groups|
  {
    if a in ExpandAll(groups[..|groups| - 1]) {
      ExpandedAreNamed(groups[..|groups| - 1], a);
    }
  }

  /** No summary whatever reads back as the page of one nameless alert. */
  lemma NamelessAlertIsLost(groups: seq<Group>)
    ensures Projected(NAMELESS) && !Named(NAMELESS)
    ensures multiset(ExpandAll(groups)) != multiset([NAMELESS])
  {
    if NAMELESS in ExpandAll(groups) {
      ExpandedAreNamed(groups, NAMELESS);
    }
    assert NAMELESS in multiset([NAMELESS]);
  }
}
