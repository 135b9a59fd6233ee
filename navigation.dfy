/**
 * `Navigation`: the navigation table and the breadcrumb trail computed from
 * the current pathname.
 */
module Navigation {
  import opened Opt
  import opened Seqs
  import opened Text

  const SEP: char := '/'
  const HOME := "Home"
  const ROOT := "/"

  /** An entry of the navigation table (its icon is not modelled). */
  datatype NavItem = NavItem(name: string, href: string, description: string)

  const HOME_DESC := "Platform overview and quick actions"
  const DASHBOARD_DESC := "Your legal cases and activities"
  const DOCUMENTS_DESC := "Manage legal documents and files"
  const ESCROW_DESC := "Legal case escrow and payments"
  const FUNDRAISING_DESC := "Legal funding campaigns"
  const MARKETPLACE_DESC := "Find lawyers and legal services"
  const VERIFICATION_DESC := "Lawyer verification and credentials"

  function NavigationTable(): seq<NavItem> {
    [ NavItem(HOME, ROOT, HOME_DESC),
      NavItem("Dashboard", "/dashboard", DASHBOARD_DESC),
      NavItem("Documents", "/documents", DOCUMENTS_DESC),
      NavItem("Escrow", "/escrow", ESCROW_DESC),
      NavItem("Fundraising", "/fundraising", FUNDRAISING_DESC),
      NavItem("Marketplace", "/marketplace", MARKETPLACE_DESC),
      NavItem("Verification", "/verification", VERIFICATION_DESC) ]
  }

  /** `s.split(sep)`: the pieces between separators, empty ones included. */
  function SplitOn(s: string, sep: char): (r: seq<string>)
    ensures |r| >= 1
    ensures forall i :: 0 <= i < |r| ==> sep !in r[i]
    decreases |s|
  {
    if s == [] then [""]
    else
      var rest := SplitOn(s[1..], sep);
      if s[0] == sep then [""] + rest
      else [[s[0]] + rest[0]] + rest[1..]
  }

  /** `parts.join(sep)`. */
  function Join(parts: seq<string>, sep: char): string
    requires |parts| >= 1
    decreases |parts|
  {
    if |parts| == 1 then parts[0] else parts[0] + [sep] + Join(parts[1..], sep)
  }

  /** Splitting loses nothing: joining the pieces gives the string back. */
  lemma {:induction false} JoinSplitOn(s: string, sep: char)
    ensures Join(SplitOn(s, sep), sep) == s
    decreases |s|
  {
    if s != [] {
      var rest := SplitOn(s[1..], sep);
      JoinSplitOn(s[1..], sep);
      if s[0] == sep {
        assert ([""] + rest)[1..] == rest;
      } else {
        var r := [[s[0]] + rest[0]] + rest[1..];
        if |rest| > 1 {
          assert r[1..] == rest[1..];
          assert Join(rest, sep) == rest[0] + [sep] + Join(rest[1..], sep);
        }
      }
    }
  }

  /** A piece without separators splits to itself. */
  lemma {:induction false} SplitOnPiece(a: string, sep: char)
    requires sep !in a
    ensures SplitOn(a, sep) == [a]
    decreases |a|
  {
    if a != [] {
      SplitOnPiece(a[1..], sep);
      assert [a[0]] + a[1..] == a;
    }
  }

  /** Splitting at a separator after a separator-free piece yields that piece first. */
  lemma {:induction false} SplitOnAfterPiece(a: string, sep: char, b: string)
    requires sep !in a
    ensures SplitOn(a + [sep] + b, sep) == [a] + SplitOn(b, sep)
    decreases |a|
  {
    var s := a + [sep] + b;
    if a == [] {
      assert s[1..] == b;
    } else {
      assert s[1..] == a[1..] + [sep] + b;
      SplitOnAfterPiece(a[1..], sep, b);
      assert [a[0]] + a[1..] == a;
    }
  }

  predicate NonEmpty(s: string) {
    s != ""
  }

  /** `pathname.split('/').filter(Boolean)`: the non-empty path segments. */
  function Segments(pathname: string): (segs: seq<string>)
    ensures forall i :: 0 <= i < |segs| ==> segs[i] != "" && SEP !in segs[i]
  {
    Filter(SplitOn(pathname, SEP), NonEmpty)
  }

  /** The path built by appending `/segment` for each segment in turn. */
  function HrefOf(segs: seq<string>): string
    decreases |segs|
  {
    if segs == [] then "" else HrefOf(segs[..|segs| - 1]) + [SEP] + segs[|segs| - 1]
  }

  lemma {:induction false} HrefOfCons(segs: seq<string>)
    requires segs != []
    ensures HrefOf(segs) == [SEP] + segs[0] + HrefOf(segs[1..])
    decreases |segs|
  {
    if |segs| > 1 {
      var init := segs[..|segs| - 1];
      HrefOfCons(init);
      assert init[1..] == segs[1..][..|segs[1..]| - 1];
    } else {
      assert segs[..0] == [];
      assert segs[1..] == [];
    }
  }

  /** A separator-free piece followed by the cumulative path of separator-free segments splits into the piece and the segments. */
  lemma {:induction false} SplitPieceThenHref(a: string, segs: seq<string>)
    requires SEP !in a
    requires forall i :: 0 <= i < |segs| ==> SEP !in segs[i]
    ensures SplitOn(a + HrefOf(segs), SEP) == [a] + segs
    decreases |segs|
  {
    if segs == [] {
      assert a + HrefOf(segs) == a;
      SplitOnPiece(a, SEP);
    } else {
      HrefOfCons(segs);
      var rest := segs[0] + HrefOf(segs[1..]);
      assert a + HrefOf(segs) == a + [SEP] + rest;
      SplitOnAfterPiece(a, SEP, rest);
      SplitPieceThenHref(segs[0], segs[1..]);
      assert [segs[0]] + segs[1..] == segs;
    }
  }

  /**
   * The path a crumb links to gives back the segments it was built from:
   * `Segments(HrefOf(segs)) == segs` for non-empty, separator-free segments.
   */
  lemma {:induction false} SegmentsOfHref(segs: seq<string>)
    requires forall i :: 0 <= i < |segs| ==> segs[i] != "" && SEP !in segs[i]
    ensures Segments(HrefOf(segs)) == segs
  {
    if segs == [] {
      assert SplitOn("", SEP) == [""];
    } else {
      SplitPieceThenHref("", segs);
      assert "" + HrefOf(segs) == HrefOf(segs);
      FilterConcat([""], segs, NonEmpty);
      FilterAll(segs, NonEmpty);
      assert Filter([""], NonEmpty) == [];
    }
  }

  /** `s.charAt(0).toUpperCase() + s.slice(1)`. */
  function Capitalize(s: string): (r: string)
    ensures |r| == |s|
    ensures s != [] ==> r[0] == UpperChar(s[0]) && r[1..] == s[1..]
  {
    if s == [] then "" else [UpperChar(s[0])] + s[1..]
  }

  /**
   * The crumb label, `navItem?.name || capitalised segment`, where `navItem`
   * is `navigation.find(item => item.href === href)`.
   */
  function CrumbName(table: seq<NavItem>, href: string, segment: string): (r: string)
    ensures r == Capitalize(segment) ||
            (r != "" && exists k :: 0 <= k < |table| && table[k].href == href && table[k].name == r)
  {
    match Find(table, (item: NavItem) => item.href == href)
    case Some(item) => if item.name != "" then item.name else Capitalize(segment)
    case None => Capitalize(segment)
  }

  /** The label is the first matching entry's name when it has one, and the capitalised segment when no entry matches. */
  lemma CrumbNameFirstMatch(table: seq<NavItem>, href: string, segment: string)
    ensures (forall k :: 0 <= k < |table| ==> table[k].href != href) ==>
      CrumbName(table, href, segment) == Capitalize(segment)
    ensures forall k ::
      (0 <= k < |table| && table[k].href == href && table[k].name != ""
       && (forall j :: 0 <= j < k ==> table[j].href != href))
      ==> CrumbName(table, href, segment) == table[k].name
  {
    var m := Find(table, (item: NavItem) => item.href == href);
    forall k | 0 <= k < |table| && table[k].href == href && table[k].name != ""
      && (forall j :: 0 <= j < k ==> table[j].href != href)
      ensures CrumbName(table, href, segment) == table[k].name
    {
      var first :| 0 <= first < |table| && table[first] == m.value && table[first].href == href
        && forall j :: 0 <= j < first ==> table[j].href != href;
      assert first == k;
    }
  }

  /** A path in the navigation table is labelled with the table's name for it, any other with its capitalised segment. */
  lemma CrumbNameUsesTable(href: string, segment: string)
    ensures forall k :: 0 <= k < |NavigationTable()| && NavigationTable()[k].href == href ==>
      CrumbName(NavigationTable(), href, segment) == NavigationTable()[k].name
    ensures (forall k :: 0 <= k < |NavigationTable()| ==> NavigationTable()[k].href != href) ==>
      CrumbName(NavigationTable(), href, segment) == Capitalize(segment)
  {
    NavigationHrefsAreDistinct();
    CrumbNameFirstMatch(NavigationTable(), href, segment);
  }

  datatype Crumb = Crumb(name: string, href: string, current: bool)

  /**
   * What the crumb for segment `k` (0-based) is: it links to the first
   * `k + 1` segments, is labelled for that path and its own segment, and is
   * current exactly when its segment is the last.
   */
  predicate IsCrumbFor(c: Crumb, table: seq<NavItem>, segs: seq<string>, k: nat)
    requires k < |segs|
  {
    && c.href == HrefOf(segs[..k + 1])
    && c.name == CrumbName(table, c.href, segs[k])
    && (c.current <==> k == |segs| - 1)
  }

  /** `getBreadcrumbs` for the given pathname: Home, then one crumb per non-empty segment. */
  method GetBreadcrumbs(pathname: string) returns (crumbs: seq<Crumb>)
    ensures |crumbs| == 1 + |Segments(pathname)|
    ensures crumbs[0] == Crumb(HOME, ROOT, pathname == ROOT)
    ensures forall k :: 0 <= k < |crumbs[1..]| ==> IsCrumbFor(crumbs[1..][k], NavigationTable(), Segments(pathname), k)
  {
    var segs := Segments(pathname);
    var trail := SegmentCrumbs(NavigationTable(), segs);
    crumbs := [Crumb(HOME, ROOT, pathname == ROOT)] + trail;
    assert crumbs[1..] == trail;
  }

  /** The `forEach` over the segments: one crumb per segment, extending the path as it goes. */
  method SegmentCrumbs(table: seq<NavItem>, segs: seq<string>) returns (trail: seq<Crumb>)
    ensures |trail| == |segs|
    ensures forall k :: 0 <= k < |trail| ==> IsCrumbFor(trail[k], table, segs, k)
  {
    trail := [];
    var currentPath := "";
    var index := 0;
    while index < |segs|
      invariant 0 <= index <= |segs|
      invariant |trail| == index
      invariant currentPath == HrefOf(segs[..index])
      invariant forall k :: 0 <= k < |trail| ==> IsCrumbFor(trail[k], table, segs, k)
    {
      var segment := segs[index];
      assert segs[..index + 1][..index] == segs[..index];
      assert HrefOf(segs[..index + 1]) == HrefOf(segs[..index]) + [SEP] + segment;
      currentPath := currentPath + [SEP] + segment;
      var name := CrumbName(table, currentPath, segment);
      var crumb := Crumb(name, currentPath, index == |segs| - 1);
      assert IsCrumbFor(crumb, table, segs, index);
      trail := trail + [crumb];
      index := index + 1;
    }
  }

  /** Only the last crumb after Home is current; Home is current only on the root path, where it is alone. */
  lemma OnlyLastCrumbCurrent(pathname: string, crumbs: seq<Crumb>)
    requires |crumbs| == 1 + |Segments(pathname)|
    requires crumbs[0] == Crumb(HOME, ROOT, pathname == ROOT)
    requires forall k :: 0 <= k < |crumbs[1..]| ==> IsCrumbFor(crumbs[1..][k], NavigationTable(), Segments(pathname), k)
    ensures forall i :: 1 <= i < |crumbs| ==> (crumbs[i].current <==> i == |crumbs| - 1)
    ensures |crumbs| > 1 ==> !crumbs[0].current
  {
    forall i | 1 <= i < |crumbs|
      ensures crumbs[i].current <==> i == |crumbs| - 1
    {
      assert crumbs[i] == crumbs[1..][i - 1];
    }
    if |crumbs| > 1 && pathname == ROOT {
      RootHasNoSegments();
    }
  }

  /** Each crumb's link leads back to the segments before it. */
  lemma CrumbHrefRoundTrip(pathname: string, i: nat)
    requires i <= |Segments(pathname)|
    ensures Segments(HrefOf(Segments(pathname)[..i])) == Segments(pathname)[..i]
  {
    SegmentsOfHref(Segments(pathname)[..i]);
  }

  /** The pathnames "/" and "" have no segments, so their trail is the Home crumb alone. */
  lemma {:induction false} RootHasNoSegments()
    ensures Segments(ROOT) == [] && Segments("") == []
  {
    assert SplitOn(ROOT, SEP) == [""] + [""];
    FilterConcat([""], [""], NonEmpty);
  }

  /** No two entries of the navigation table share a path, so each path has one name. */
  lemma NavigationHrefsAreDistinct()
    ensures forall j, k :: 0 <= j < k < |NavigationTable()| ==> NavigationTable()[j].href != NavigationTable()[k].href
  {
  }
}
