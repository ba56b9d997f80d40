/** The home screen (app/index.tsx): the apps split into three status
    buckets, a spinner while loading, and one titled section per non-empty
    bucket. */
module HomeScreen {
  import opened Wrappers
  import opened Types
  import opened AppCard

  // ---------------------------------------------------------------------
  // The status buckets (app/index.tsx:13-15)
  // ---------------------------------------------------------------------

  /** The apps whose status is `status`, in list order. */
  function Bucket(apps: seq<App>, status: AppStatus): (b: seq<App>)
    ensures |b| <= |apps|
    ensures forall i :: 0 <= i < |b| ==> b[i].status == status
  {
    if apps == [] then []
    else if apps[0].status == status then [apps[0]] + Bucket(apps[1..], status)
    else Bucket(apps[1..], status)
  }

  datatype Buckets = Buckets(successful: seq<App>, inProgress: seq<App>, failed: seq<App>)

  /** The three filters the screen computes. Each bucket holds only apps of
      its own status, and every app of the list is in one of them. */
  function Partition(apps: seq<App>): (p: Buckets)
    ensures forall i :: 0 <= i < |p.successful| ==> p.successful[i].status == Successful
    ensures forall i :: 0 <= i < |p.inProgress| ==> p.inProgress[i].status == InProgress
    ensures forall i :: 0 <= i < |p.failed| ==> p.failed[i].status == Failed
    ensures forall a :: a in apps ==> a in p.successful || a in p.inProgress || a in p.failed
  {
    var p := Buckets(Bucket(apps, Successful), Bucket(apps, InProgress), Bucket(apps, Failed));
    assert forall a :: a in apps ==> a in p.successful || a in p.inProgress || a in p.failed by {
      forall a | a in apps ensures a in p.successful || a in p.inProgress || a in p.failed {
        BucketMembers(apps, a.status, a);
      }
    }
    p
  }

  /** `s` can be obtained from `t` by deleting elements: same elements in the
      same relative order. */
  predicate IsSubsequence(s: seq<App>, t: seq<App>)
    decreases |t|
  {
    if s == [] then true
    else if t == [] then false
    else (s[0] == t[0] && IsSubsequence(s[1..], t[1..])) || IsSubsequence(s, t[1..])
  }

  /** A bucket keeps exactly the apps with its status: every copy of a
      matching app, no copy of any other, in the original relative order. */
  lemma {:induction false} BucketExact(apps: seq<App>, status: AppStatus)
    ensures IsSubsequence(Bucket(apps, status), apps)
    ensures forall a :: multiset(Bucket(apps, status))[a] == (if a.status == status then multiset(apps)[a] else 0)
  {
    if apps != [] {
      BucketExact(apps[1..], status);
      assert apps == [apps[0]] + apps[1..];
      assert multiset(apps) == multiset{apps[0]} + multiset(apps[1..]);
    }
  }

  /** Membership form of the same fact. */
  lemma BucketMembers(apps: seq<App>, status: AppStatus, a: App)
    ensures a in Bucket(apps, status) <==> a in apps && a.status == status
  {
    BucketExact(apps, status);
    assert a in Bucket(apps, status) <==> multiset(Bucket(apps, status))[a] > 0;
  }

  /** The three buckets together are a rearrangement of the whole list:
      nothing is lost and nothing is duplicated, because the status union
      has exactly three members. */
  lemma {:induction false} PartitionComplete(apps: seq<App>)
    ensures var p := Partition(apps);
      multiset(p.successful) + multiset(p.inProgress) + multiset(p.failed) == multiset(apps)
    ensures var p := Partition(apps);
      |p.successful| + |p.inProgress| + |p.failed| == |apps|
  {
    if apps != [] {
      PartitionComplete(apps[1..]);
      assert apps == [apps[0]] + apps[1..];
      assert multiset(apps) == multiset{apps[0]} + multiset(apps[1..]);
    }
  }

  /** Every app is in exactly one bucket: the one of its own status. */
  lemma ExactlyOneBucket(apps: seq<App>, a: App)
    requires a in apps
    ensures var p := Partition(apps);
      (a in p.successful <==> a.status == Successful) &&
      (a in p.inProgress <==> a.status == InProgress) &&
      (a in p.failed <==> a.status == Failed)
  {
    BucketMembers(apps, Successful, a);
    BucketMembers(apps, InProgress, a);
    BucketMembers(apps, Failed, a);
  }

  // ---------------------------------------------------------------------
  // Sections and the screen (app/index.tsx:17-23, 47-49, 55-68)
  // ---------------------------------------------------------------------

  datatype SectionView = SectionView(title: string, cards: seq<Card>)

  datatype Screen = Spinner | Page(sections: seq<SectionView>)

  const SUCCESSFUL_TITLE := "Successful Apps"
  const IN_PROGRESS_TITLE := "In Progress"
  const FAILED_TITLE := "Failed Experiments"

  /** The heading of each bucket's section. */
  function SectionTitle(status: AppStatus): string
  {
    match status
    case Successful => SUCCESSFUL_TITLE
    case InProgress => IN_PROGRESS_TITLE
    case Failed => FAILED_TITLE
  }

  /** One card per app, in order, each numbered by its position. */
  function Cards(apps: seq<App>): (cards: seq<Card>)
    ensures |cards| == |apps|
    ensures forall i :: 0 <= i < |apps| ==> cards[i] == CardOf(apps[i], i)
  {
    seq(|apps|, i requires 0 <= i < |apps| => CardOf(apps[i], i))
  }

  /** A section: nothing for an empty bucket, otherwise the
      title over one card per app, in order, numbered from 0. */
  function Section(title: string, apps: seq<App>): (view: Option<SectionView>)
    ensures view == None <==> |apps| == 0
    ensures view != None ==> view.value.title == title && |view.value.cards| == |apps|
    ensures view != None ==> forall i :: 0 <= i < |apps| ==> view.value.cards[i] == CardOf(apps[i], i)
  {
    if |apps| == 0 then None else Some(SectionView(title, Cards(apps)))
  }

  /** The sections that render, in the order they are written. */
  function Present(views: seq<Option<SectionView>>): seq<SectionView>
  {
    if views == [] then []
    else Shown(views[0]) + Present(views[1..])
  }

  /** `HomeScreen`: only the spinner while loading; otherwise the three
      sections in the fixed order successful, in progress, failed. */
  function Render(apps: seq<App>, loading: bool): (screen: Screen)
    ensures loading <==> screen == Spinner
  {
    if loading then Spinner
    else
      var p := Partition(apps);
      Page(Present([
        Section(SectionTitle(Successful), p.successful),
        Section(SectionTitle(InProgress), p.inProgress),
        Section(SectionTitle(Failed), p.failed)]))
  }

  /** Total number of cards over all sections. */
  function CardCount(sections: seq<SectionView>): nat
  {
    if sections == [] then 0 else |sections[0].cards| + CardCount(sections[1..])
  }

  /** The section list for at most one view. */
  function Shown(view: Option<SectionView>): seq<SectionView>
  {
    if view.Some? then [view.value] else []
  }

  lemma PresentThree(x: Option<SectionView>, y: Option<SectionView>, z: Option<SectionView>)
    ensures Present([x, y, z]) == Shown(x) + Shown(y) + Shown(z)
  {
    var views := [x, y, z];
    assert views[1..] == [y, z];
    assert views[1..][1..] == [z];
    assert views[1..][1..][1..] == [];
    assert Present([z]) == Shown(z) + Present([]);
    assert Present([y, z]) == Shown(y) + Present([z]);
  }

  lemma {:induction false} CardCountAppend(s: seq<SectionView>, t: seq<SectionView>)
    ensures CardCount(s + t) == CardCount(s) + CardCount(t)
  {
    if s == [] {
      assert s + t == t;
    } else {
      CardCountAppend(s[1..], t);
      assert (s + t)[1..] == s[1..] + t;
    }
  }

  lemma CardCountShown(title: string, apps: seq<App>)
    ensures CardCount(Shown(Section(title, apps))) == |apps|
  {
    var view := Section(title, apps);
    if view.Some? { assert Shown(view)[1..] == []; }
  }

  /** Once loaded, the page lists one section per non-empty bucket, in the
      fixed order successful, in progress, failed. */
  lemma RenderLoaded(apps: seq<App>)
    ensures var p := Partition(apps);
      Render(apps, false) == Page(
        Shown(Section(SectionTitle(Successful), p.successful)) +
        Shown(Section(SectionTitle(InProgress), p.inProgress)) +
        Shown(Section(SectionTitle(Failed), p.failed)))
  {
    var p := Partition(apps);
    PresentThree(
      Section(SectionTitle(Successful), p.successful),
      Section(SectionTitle(InProgress), p.inProgress),
      Section(SectionTitle(Failed), p.failed));
  }

  /** Once loaded, the page shows exactly one card per app. */
  lemma RenderCardCount(apps: seq<App>)
    ensures CardCount(Render(apps, false).sections) == |apps|
  {
    RenderLoaded(apps);
    PartitionComplete(apps);
    var p := Partition(apps);
    var x := Shown(Section(SectionTitle(Successful), p.successful));
    var y := Shown(Section(SectionTitle(InProgress), p.inProgress));
    var z := Shown(Section(SectionTitle(Failed), p.failed));
    CardCountAppend(x + y, z);
    CardCountAppend(x, y);
    CardCountShown(SectionTitle(Successful), p.successful);
    CardCountShown(SectionTitle(InProgress), p.inProgress);
    CardCountShown(SectionTitle(Failed), p.failed);
  }

  /** Every card in the section of a bucket, under that bucket's title,
      shows an app of the list that has the bucket's status. */
  lemma SectionCardsHaveStatus(apps: seq<App>, status: AppStatus, i: nat)
    requires i < |Bucket(apps, status)|
    ensures var b := Bucket(apps, status);
      var view := Section(SectionTitle(status), b);
      view != None && view.value.title == SectionTitle(status) &&
      view.value.cards[i] == CardOf(b[i], i) && b[i].status == status && b[i] in apps
  {
    BucketMembers(apps, status, Bucket(apps, status)[i]);
  }

  /** The two-record example: one successful and one failed app. */
  lemma PartitionExample(a: App, b: App)
    requires a.status == Successful && b.status == Failed
    ensures Partition([a, b]) == Buckets([a], [], [b])
  {
    assert [a, b][1..] == [b];
    assert [b][1..] == [];
    assert Bucket([b], Successful) == [] && Bucket([b], InProgress) == [];
    assert Bucket([b], Failed) == [b];
  }
}
