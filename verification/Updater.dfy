/**
 * The desktop updater: scan the published page and its scripts for the assets they
 * name, fetch them all into a staging folder, and only then put it in place.
 */
module Updater {
  import opened Wrappers

  // ── Scanning ──────────────────────────────────────────────────────────────

  const STOP: set<char> := {'\"', '\'', '`', ')', '(', ' ', '\n', '\r', '\t', '\\', ',', ';'}

  /** `/assets/…` anywhere, or `"./chunk.js`, the way a bundled file names its neighbours. */
  datatype Kind = Absolute | Relative

  function Needle(kind: Kind): string {
    match kind
    case Absolute => "/assets/"
    case Relative => "\"./"
  }

  predicate Occurs(t: string, needle: string, p: nat) {
    p + |needle| <= |t| && t[p..p + |needle|] == needle
  }

  predicate Contains(t: string, part: string) {
    exists p: nat :: p <= |t| && Occurs(t, part, p)
  }

  predicate EndsWith(t: string, suffix: string) {
    |suffix| <= |t| && t[|t| - |suffix|..] == suffix
  }

  /** The first character at or after a position that ends a reference. */
  function StopFrom(t: string, p: nat): (e: nat)
    requires p <= |t|
    ensures p <= e <= |t| && (e < |t| ==> t[e] in STOP)
    ensures forall k :: p <= k < e ==> t[k] !in STOP
    decreases |t| - p
  {
    if p == |t| || t[p] in STOP then p else StopFrom(t, p + 1)
  }

  function NameAt(kind: Kind, t: string, p: nat): string
    requires Occurs(t, Needle(kind), p)
  {
    match kind
    case Absolute => t[p..StopFrom(t, p)]
    case Relative => t[p + 3..StopFrom(t, p + 3)]
  }

  predicate Keeps(kind: Kind, name: string) {
    && !Contains(name, "..") && !EndsWith(name, ".map")
    && (kind.Relative? ==> '.' in name && '/' !in name)
  }

  function Resolved(kind: Kind, name: string): string {
    match kind
    case Absolute => name
    case Relative => "/assets/" + name
  }

  /** A reference begins here: an absolute one only where no other is still running. */
  predicate Begins(kind: Kind, t: string, p: nat) {
    && Occurs(t, Needle(kind), p)
    && (kind.Absolute? ==> forall q: nat :: q < p && Occurs(t, Needle(kind), q) ==> StopFrom(t, q) <= p)
  }

  function RefAt(kind: Kind, t: string, p: nat): Option<string> {
    if Begins(kind, t, p) && Keeps(kind, NameAt(kind, t, p)) then Some(Resolved(kind, NameAt(kind, t, p)))
    else None
  }

  function Found(kind: Kind, t: string, p: nat): set<string> {
    var r := RefAt(kind, t, p);
    if r.Some? then {r.value} else {}
  }

  function RefsBefore(kind: Kind, t: string, end: nat): set<string> {
    if end == 0 then {} else RefsBefore(kind, t, end - 1) + Found(kind, t, end - 1)
  }

  /** Every reference of a kind in a text. */
  function RefsIn(kind: Kind, t: string): set<string> {
    RefsBefore(kind, t, |t|)
  }

  function ScanEnd(kind: Kind, t: string, p: nat): nat
    requires Occurs(t, Needle(kind), p)
  {
    match kind
    case Absolute => StopFrom(t, p)
    case Relative => StopFrom(t, p + 3)
  }

  /** Nothing begins inside a reference. */
  lemma NothingInside(kind: Kind, t: string, p: nat, q: nat)
    requires Begins(kind, t, p) && p < q < ScanEnd(kind, t, p)
    ensures !Begins(kind, t, q)
  {
    if kind.Relative? {
      assert t[p + 1] == t[p..p + 3][1] == '.' && t[p + 2] == t[p..p + 3][2] == '/';
      assert q + 3 <= |t| ==> t[q] == t[q..q + 3][0];
    }
  }

  lemma AbsolutePasses(t: string, p: nat)
    requires Occurs(t, Needle(Absolute), p)
    ensures StopFrom(t, p) >= p + 8
  {
  }

  lemma {:induction false} RefsOneMore(kind: Kind, t: string, p: nat, end: nat)
    requires p <= end
    requires forall q: nat :: p <= q < end ==> RefAt(kind, t, q).None?
    ensures RefsBefore(kind, t, end) == RefsBefore(kind, t, p)
  {
    hide RefAt;
    if p < end {
      RefsOneMore(kind, t, p, end - 1);
    }
  }

  /** A path is referred to exactly when some reference in the text spells it. */
  lemma {:induction false} RefsAre(kind: Kind, t: string, end: nat, ref: string)
    ensures ref in RefsBefore(kind, t, end) <==> exists p: nat :: p < end && RefAt(kind, t, p) == Some(ref)
  {
    hide RefAt;
    if end > 0 {
      RefsAre(kind, t, end - 1, ref);
      if RefAt(kind, t, end - 1) == Some(ref) {
      } else if p: nat :| p < end && RefAt(kind, t, p) == Some(ref) {
        assert p < end - 1;
      }
    }
  }

  /** None of these ends a path. */
  predicate OnePath(name: string) {
    forall k :: 0 <= k < |name| ==> name[k] !in {'\"', '\'', '`', ')', '(', ' ', '\n', '\r', '\t', '\\', ',', ';'}
  }

  /** A stretch of the text that no character ending a path breaks, and that one ends, or the text does. */
  predicate WholePath(t: string, p: nat, e: nat) {
    p <= e <= |t| && OnePath(t[p..e]) && (e < |t| ==> !OnePath(t[e..e + 1]))
  }

  lemma WholePathStops(t: string, p: nat, e: nat)
    requires p <= |t|
    ensures WholePath(t, p, e) <==> e == StopFrom(t, p)
  {
    if WholePath(t, p, e) {
      assert forall k :: p <= k < e ==> t[k] == t[p..e][k - p];
      assert e < |t| ==> t[e] == t[e..e + 1][0];
    }
  }

  lemma BrokenBefore(t: string, q: nat, p: nat)
    requires q <= p < |t| && OnePath(t[p..p + 1])
    ensures StopFrom(t, q) <= p <==> !OnePath(t[q..p])
  {
    assert t[p] == t[p..p + 1][0];
    if OnePath(t[q..p]) {
      assert forall k :: q <= k < p ==> t[k] == t[q..p][k - q];
    } else {
      var k :| 0 <= k < p - q && t[q..p][k] in STOP;
      assert t[q + k] in STOP;
    }
  }

  /** A path that begins with `/assets/` inside no other, up to the character that
      ends it, with no dots that climb and not a source map's. */
  ghost predicate AbsoluteRef(t: string, p: nat, e: nat, ref: string) {
    && WholePath(t, p, e) && ref == t[p..e] && "/assets/" <= ref && !Contains(ref, "..") && !EndsWith(ref, ".map")
    && forall q: nat :: q < p && Occurs(t, "/assets/", q) ==> !OnePath(t[q..p])
  }

  /** A file name quoted after `./`, with the same exceptions. */
  predicate RelativeRef(t: string, p: nat, e: nat, ref: string) {
    && Occurs(t, "\"./", p) && WholePath(t, p + 3, e) && ref == "/assets/" + t[p + 3..e]
    && '.' in t[p + 3..e] && '/' !in t[p + 3..e] && !Contains(t[p + 3..e], "..") && !EndsWith(t[p + 3..e], ".map")
  }

  lemma AbsoluteIsRef(t: string, p: nat, e: nat, ref: string)
    requires p <= |t|
    ensures AbsoluteRef(t, p, e, ref) <==> RefAt(Absolute, t, p) == Some(ref) && e == StopFrom(t, p)
  {
    WholePathStops(t, p, e);
    if e == StopFrom(t, p) && WholePath(t, p, e) {
      if "/assets/" <= t[p..e] {
        assert t[p..e][..8] == t[p..p + 8];
      }
      if Occurs(t, "/assets/", p) {
        AbsolutePasses(t, p);
        assert t[p..p + 8] <= t[p..e] && t[p] == t[p..p + 8][0] && t[p] == t[p..p + 1][0];
        forall q: nat | q < p
          ensures StopFrom(t, q) <= p <==> !OnePath(t[q..p])
        {
          BrokenBefore(t, q, p);
        }
      }
    }
  }

  /** What a text refers to by an absolute path, spelt out. */
  lemma AbsoluteRefsAre(t: string, ref: string)
    ensures ref in RefsIn(Absolute, t) <==> exists p: nat, e: nat :: AbsoluteRef(t, p, e, ref)
  {
    hide RefAt, AbsoluteRef;
    RefsAre(Absolute, t, |t|, ref);
    if p: nat :| p < |t| && RefAt(Absolute, t, p) == Some(ref) {
      AbsoluteIsRef(t, p, StopFrom(t, p), ref);
    }
    if p: nat, e: nat :| AbsoluteRef(t, p, e, ref) {
      AbsoluteRefBegins(t, p, e, ref);
      AbsoluteIsRef(t, p, e, ref);
    }
  }

  lemma AbsoluteRefBegins(t: string, p: nat, e: nat, ref: string)
    requires AbsoluteRef(t, p, e, ref)
    ensures p < |t|
  {
  }

  lemma RelativeIsRef(t: string, p: nat, e: nat, ref: string)
    ensures RelativeRef(t, p, e, ref) <==> RefAt(Relative, t, p) == Some(ref) && e == StopFrom(t, p + 3)
  {
    if p + 3 <= |t| {
      WholePathStops(t, p + 3, e);
    }
  }

  /** And by a relative one. */
  lemma RelativeRefsAre(t: string, ref: string)
    ensures ref in RefsIn(Relative, t) <==> exists p: nat, e: nat :: RelativeRef(t, p, e, ref)
  {
    hide RefAt;
    RefsAre(Relative, t, |t|, ref);
    if p: nat :| p < |t| && RefAt(Relative, t, p) == Some(ref) {
      RelativeIsRef(t, p, if p + 3 <= |t| then StopFrom(t, p + 3) else 0, ref);
    }
    if p: nat, e: nat :| RelativeRef(t, p, e, ref) {
      RelativeIsRef(t, p, e, ref);
    }
  }

  predicate Distinct(list: seq<string>) {
    forall i, j :: 0 <= i < j < |list| ==> list[i] != list[j]
  }

  ghost predicate Lists(out: seq<string>, refs: set<string>) {
    Distinct(out) && forall s :: s in out <==> s in refs
  }

  /** A scan that has read this far: it lists what the text before here refers to,
      and no reference is still running. */
  ghost predicate Scanned(kind: Kind, t: string, out: seq<string>, i: nat) {
    && i <= |t| && Lists(out, RefsBefore(kind, t, i))
    && (kind.Absolute? ==> forall q: nat :: q < i && Occurs(t, Needle(kind), q) ==> StopFrom(t, q) <= i)
  }

  lemma StopsTogether(t: string, p: nat, q: nat)
    requires p <= |t| && p <= q <= StopFrom(t, p)
    ensures StopFrom(t, q) == StopFrom(t, p)
  {
  }

  lemma ScanSkips(kind: Kind, t: string, out: seq<string>, i: nat)
    requires Scanned(kind, t, out, i) && i < |t| && !Occurs(t, Needle(kind), i)
    ensures Scanned(kind, t, out, i + 1)
  {
    assert RefAt(kind, t, i).None?;
    hide RefAt, Occurs;
    assert RefsBefore(kind, t, i + 1) == RefsBefore(kind, t, i);
  }

  /** A reference found: none begins inside it, and none runs past its end. */
  lemma ReadsOver(kind: Kind, t: string, i: nat)
    requires Begins(kind, t, i)
    ensures i < ScanEnd(kind, t, i) <= |t|
    ensures RefsBefore(kind, t, ScanEnd(kind, t, i)) == RefsBefore(kind, t, i) + Found(kind, t, i)
    ensures kind.Absolute? ==> forall q: nat :: i <= q < ScanEnd(kind, t, i) ==> StopFrom(t, q) <= ScanEnd(kind, t, i)
  {
    if kind.Absolute? {
      AbsolutePasses(t, i);
      forall q: nat | i <= q < StopFrom(t, i)
        ensures StopFrom(t, q) <= StopFrom(t, i)
      {
        StopsTogether(t, i, q);
      }
    }
    var end := ScanEnd(kind, t, i);
    forall q: nat | i < q < end
      ensures RefAt(kind, t, q).None?
    {
      NothingInside(kind, t, i, q);
    }
    hide RefAt, Begins, Occurs, ScanEnd;
    RefsOneMore(kind, t, i + 1, end);
  }

  lemma ScanTakes(kind: Kind, t: string, out: seq<string>, i: nat, grown: seq<string>)
    requires Scanned(kind, t, out, i) && Occurs(t, Needle(kind), i)
    requires var name := NameAt(kind, t, i);
             grown == if Keeps(kind, name) && Resolved(kind, name) !in out then out + [Resolved(kind, name)] else out
    ensures i < ScanEnd(kind, t, i) && Scanned(kind, t, grown, ScanEnd(kind, t, i))
  {
    ReadsOver(kind, t, i);
    assert Lists(grown, RefsBefore(kind, t, i) + Found(kind, t, i)) by {
      hide Keeps, NameAt, Resolved, RefsBefore, StopFrom;
    }
    hide RefsBefore, Found, ScanEnd, NameAt, Keeps, Resolved, Lists;
  }

  lemma ScanEnds(kind: Kind, t: string, out: seq<string>, i: nat)
    requires Scanned(kind, t, out, i) && |t| < i + |Needle(kind)|
    ensures Lists(out, RefsIn(kind, t))
  {
    assert forall q: nat :: i <= q ==> RefAt(kind, t, q).None?;
    hide RefAt;
    RefsOneMore(kind, t, i, |t|);
  }

  method EndOfName(t: string, start: nat) returns (end: nat)
    requires start <= |t|
    ensures end == StopFrom(t, start)
  {
    end := start;
    while end < |t| && t[end] !in STOP
      invariant start <= end <= |t| && StopFrom(t, end) == StopFrom(t, start)
      decreases |t| - end
    {
      end := end + 1;
    }
  }

  method AssetRefs(t: string) returns (out: seq<string>)
    ensures Lists(out, RefsIn(Absolute, t))
  {
    out := [];
    var i := 0;
    assert Scanned(Absolute, t, out, i);
    hide Scanned, Lists, RefsIn, Contains, EndsWith, StopFrom;
    while i + 8 <= |t|
      invariant i <= |t| && Scanned(Absolute, t, out, i)
      decreases |t| - i
    {
      if t[i..i + 8] != "/assets/" {
        ScanSkips(Absolute, t, out, i);
        i := i + 1;
      } else {
        var end := EndOfName(t, i);
        var name := t[i..end];
        ghost var was := out;
        if !Contains(name, "..") && !EndsWith(name, ".map") && name !in out {
          out := out + [name];
        }
        ScanTakes(Absolute, t, was, i, out);
        i := if end > i + 1 then end else i + 1;
      }
    }
    ScanEnds(Absolute, t, out, i);
  }

  method RelativeRefs(t: string) returns (out: seq<string>)
    ensures Lists(out, RefsIn(Relative, t))
  {
    out := [];
    var i := 0;
    assert Scanned(Relative, t, out, i);
    hide Scanned, Lists, RefsIn, Contains, EndsWith, StopFrom;
    while i + 3 <= |t|
      invariant i <= |t| && Scanned(Relative, t, out, i)
      decreases |t| - i
    {
      if t[i..i + 3] != "\"./" {
        ScanSkips(Relative, t, out, i);
        i := i + 1;
      } else {
        var start := i + 3;
        var end := EndOfName(t, start);
        var name := t[start..end];
        ghost var was := out;
        if '.' in name && '/' !in name && !Contains(name, "..") && !EndsWith(name, ".map") {
          var abs := "/assets/" + name;
          if abs !in out {
            out := out + [abs];
          }
        }
        ScanTakes(Relative, t, was, i, out);
        i := if end > i + 1 then end else i + 1;
      }
    }
    ScanEnds(Relative, t, out, i);
  }

  // ── The reference graph ───────────────────────────────────────────────────

  /** What the origin serves for a path: a page or script, or bytes that are no text. */
  datatype Body = Text(text: string) | Binary(bytes: seq<bv8>)

  type Site = map<string, Body>

  /** Only scripts and style sheets name further files. */
  function Named(site: Site, f: string): set<string> {
    if f in site && site[f].Text? && (EndsWith(f, ".js") || EndsWith(f, ".css"))
    then RefsIn(Absolute, site[f].text) + RefsIn(Relative, site[f].text)
    else {}
  }

  predicate Walk(site: Site, roots: set<string>, path: seq<string>) {
    && path != [] && path[0] in roots
    && forall i :: 0 <= i < |path| - 1 ==> (var j := i + 1; path[j] in Named(site, path[i]))
  }

  ghost predicate Reachable(site: Site, roots: set<string>, f: string) {
    exists path :: Walk(site, roots, path) && path[|path| - 1] == f
  }

  lemma RootReachable(site: Site, roots: set<string>, f: string)
    requires f in roots
    ensures Reachable(site, roots, f)
  {
    assert Walk(site, roots, [f]);
  }

  lemma NextReachable(site: Site, roots: set<string>, f: string, g: string)
    requires Reachable(site, roots, f) && g in Named(site, f)
    ensures Reachable(site, roots, g)
  {
    hide Named;
    var path :| Walk(site, roots, path) && path[|path| - 1] == f;
    var longer := path + [g];
    assert Walk(site, roots, longer);
  }

  /** Files that hold the roots and everything they name hold all that is reachable. */
  lemma {:induction false} ClosedHoldsWalk(site: Site, roots: set<string>, files: seq<string>, path: seq<string>)
    requires forall r :: r in roots ==> r in files
    requires forall f, g :: f in files && g in Named(site, f) ==> g in files
    requires Walk(site, roots, path)
    ensures path[|path| - 1] in files
  {
    if |path| > 1 {
      var front := path[..|path| - 1];
      assert path[|path| - 1] in Named(site, path[|path| - 2]);
      ClosedHoldsWalk(site, roots, files, front);
    }
  }

  lemma ClosedHoldsReachable(site: Site, roots: set<string>, files: seq<string>, f: string)
    requires forall r :: r in roots ==> r in files
    requires forall f, g :: f in files && g in Named(site, f) ==> g in files
    requires Reachable(site, roots, f)
    ensures f in files
  {
    var path :| Walk(site, roots, path) && path[|path| - 1] == f;
    ClosedHoldsWalk(site, roots, files, path);
  }

  predicate IsAsset(f: string) {
    "/assets/" <= f
  }

  lemma RefsAreAssets(kind: Kind, t: string)
    ensures forall r :: r in RefsIn(kind, t) ==> IsAsset(r)
  {
    forall r | r in RefsIn(kind, t)
      ensures IsAsset(r)
    {
      RefsAre(kind, t, |t|, r);
      var p: nat :| p < |t| && RefAt(kind, t, p) == Some(r);
      hide RefsBefore;
      RefIsAsset(kind, t, p);
    }
  }

  lemma RefIsAsset(kind: Kind, t: string, p: nat)
    requires RefAt(kind, t, p).Some?
    ensures IsAsset(RefAt(kind, t, p).value)
  {
    if kind.Absolute? {
      AbsolutePasses(t, p);
      assert t[p..StopFrom(t, p)][..8] == t[p..p + 8];
    }
  }

  lemma ReachableIsAsset(site: Site, page: string, f: string)
    requires Reachable(site, RefsIn(Absolute, page), f)
    ensures IsAsset(f)
  {
    var path :| Walk(site, RefsIn(Absolute, page), path) && path[|path| - 1] == f;
    RefsAreAssets(Absolute, page);
    if |path| > 1 {
      var before := path[|path| - 2];
      assert f in Named(site, before);
      RefsAreAssets(Absolute, site[before].text);
      RefsAreAssets(Relative, site[before].text);
    }
  }

  lemma {:induction false} NoMoreThan(list: seq<string>, all: set<string>)
    requires Distinct(list) && forall f :: f in list ==> f in all
    ensures |list| <= |all|
  {
    if list != [] {
      var last := list[|list| - 1];
      NoMoreThan(list[..|list| - 1], all - {last});
    }
  }

  // ── Updating ──────────────────────────────────────────────────────────────

  const MARKER := "name=\"yappy-desktop\""

  type Folder = map<string, Body>

  datatype Outcome = Kept | Updated | Failed

  /** Where a file goes in the folder: its path without the leading slash. */
  function Place(f: string): string
    requires IsAsset(f)
  {
    f[1..]
  }

  /** A folder holding exactly these files of the site. */
  predicate Holds(folder: Folder, site: Site, files: seq<string>) {
    && (forall f :: f in files ==> f in site && IsAsset(f) && Place(f) in folder && folder[Place(f)] == site[f])
    && (forall k :: k in folder ==> "/" + k in files)
  }

  /** The page and, in its place, each file it leads to; nothing else. */
  ghost predicate IsBundle(folder: Folder, site: Site, page: string) {
    && "index.html" in folder && folder["index.html"] == Text(page)
    && (forall f :: Reachable(site, RefsIn(Absolute, page), f) ==>
          f in site && IsAsset(f) && Place(f) in folder && folder[Place(f)] == site[f])
    && (forall k :: k in folder && k != "index.html" ==> Reachable(site, RefsIn(Absolute, page), "/" + k))
  }

  /** Whatever the page, or a script or style sheet in the folder, refers to is in the folder, as the site has it. */
  lemma BundleIsClosed(folder: Folder, site: Site, page: string, f: string, r: string)
    requires IsBundle(folder, site, page)
    requires r in RefsIn(Absolute, page)
             || (&& IsAsset(f) && Place(f) in folder && f in site && site[f].Text?
                 && (f[|f| - 3..] == ".js" || f[|f| - 4..] == ".css")
                 && r in RefsIn(Absolute, site[f].text) + RefsIn(Relative, site[f].text))
    ensures r in site && IsAsset(r) && Place(r) in folder && folder[Place(r)] == site[r]
  {
    hide RefsIn, Reachable;
    if r in RefsIn(Absolute, page) {
      RootReachable(site, RefsIn(Absolute, page), r);
    } else {
      assert "/" + Place(f) == f && Place(f)[0] == f[1];
      NextReachable(site, RefsIn(Absolute, page), f, r);
    }
  }

  /** And nothing else is there: each file is referred to by the page, or by a script or style sheet itself there. */
  lemma NothingStray(folder: Folder, site: Site, page: string, k: string) returns (f: string)
    requires IsBundle(folder, site, page) && k in folder && k != "index.html" && "/" + k !in RefsIn(Absolute, page)
    ensures IsAsset(f) && Place(f) in folder && f in site && site[f].Text?
    ensures f[|f| - 3..] == ".js" || f[|f| - 4..] == ".css"
    ensures "/" + k in RefsIn(Absolute, site[f].text) + RefsIn(Relative, site[f].text)
  {
    hide RefsIn;
    var path :| Walk(site, RefsIn(Absolute, page), path) && path[|path| - 1] == "/" + k;
    f := path[|path| - 2];
    assert "/" + k in Named(site, f);
    var front := path[..|path| - 1];
    assert Walk(site, RefsIn(Absolute, page), front) && front[|front| - 1] == f;
  }

  ghost predicate Complete(site: Site, page: string) {
    forall f :: Reachable(site, RefsIn(Absolute, page), f) ==> f in site
  }

  /** The worklist: what is on it is reachable, and what the first part of it names is on it. */
  ghost predicate Walked(site: Site, page: string, files: seq<string>, i: nat) {
    && i <= |files| && Distinct(files)
    && (forall f :: f in files ==> Reachable(site, RefsIn(Absolute, page), f))
    && (forall r :: r in RefsIn(Absolute, page) ==> r in files)
    && (forall f :: f in files[..i] ==> f in site)
    && (forall f, g :: f in files[..i] && g in Named(site, f) ==> g in files)
  }

  lemma WalkedAll(site: Site, page: string, files: seq<string>, f: string)
    requires Walked(site, page, files, |files|)
    ensures Reachable(site, RefsIn(Absolute, page), f) <==> f in files
  {
    assert files[..|files|] == files;
    if Reachable(site, RefsIn(Absolute, page), f) {
      ClosedHoldsReachable(site, RefsIn(Absolute, page), files, f);
    }
  }

  ghost predicate OnlyReachable(site: Site, page: string, files: seq<string>) {
    Distinct(files) && forall f :: f in files ==> Reachable(site, RefsIn(Absolute, page), f)
  }

  lemma FolderIsBundle(folder: Folder, site: Site, page: string, files: seq<string>)
    requires Holds(folder, site, files)
    requires forall f :: Reachable(site, RefsIn(Absolute, page), f) <==> f in files
    ensures IsBundle(folder["index.html" := Text(page)], site, page) && Complete(site, page)
  {
    hide Reachable, RefsIn, Named;
    assert forall f :: f in files ==> Place(f)[0] == f[1];
  }

  lemma BundleStands(folder: Folder, site: Site, page: string, files: seq<string>)
    requires Walked(site, page, files, |files|) && Holds(folder, site, files)
    ensures IsBundle(folder["index.html" := Text(page)], site, page) && Complete(site, page)
    ensures OnlyReachable(site, page, files)
    ensures forall f :: Reachable(site, RefsIn(Absolute, page), f) ==> f in files
  {
    WalkedSoFar(site, page, files, |files|, |files|);
    assert files[..|files|] == files;
    hide *;
    forall f
      ensures Reachable(site, RefsIn(Absolute, page), f) <==> f in files
    {
      WalkedAll(site, page, files, f);
    }
    FolderIsBundle(folder, site, page, files);
  }

  lemma HoldsOneMore(folder: Folder, site: Site, files: seq<string>, f: string)
    requires Holds(folder, site, files) && f in site && IsAsset(f)
    ensures Holds(folder[Place(f) := site[f]], site, files + [f])
  {
    assert "/" + Place(f) == f;
    forall g | g in files && Place(g) == Place(f)
      ensures g == f
    {
      assert "/" + Place(g) == g;
    }
  }

  method PushNew(files: seq<string>, nested: seq<string>) returns (grown: seq<string>)
    requires Distinct(files)
    ensures Distinct(grown) && files <= grown
    ensures forall f :: f in grown <==> f in files || f in nested
  {
    grown := files;
    for k := 0 to |nested|
      invariant Distinct(grown) && files <= grown
      invariant forall f :: f in grown <==> f in files || f in nested[..k]
    {
      if nested[k] !in grown {
        grown := grown + [nested[k]];
      }
    }
  }

  /** The files one fetched body adds to the worklist. */
  method Follow(site: Site, files: seq<string>, rel: string) returns (grown: seq<string>)
    requires Distinct(files) && rel in site
    ensures Distinct(grown) && files <= grown
    ensures forall f :: f in grown <==> f in files || f in Named(site, rel)
  {
    grown := files;
    if EndsWith(rel, ".js") || EndsWith(rel, ".css") {
      if site[rel].Text? {
        var absolute := AssetRefs(site[rel].text);
        var relative := RelativeRefs(site[rel].text);
        grown := PushNew(files, absolute + relative);
      }
    }
  }

  lemma WalkedOn(site: Site, page: string, files: seq<string>, i: nat, grown: seq<string>)
    requires Walked(site, page, files, i) && i < |files| && files[i] in site
    requires Distinct(grown) && files <= grown
    requires forall f :: f in grown <==> f in files || f in Named(site, files[i])
    ensures Walked(site, page, grown, i + 1) && i + 1 <= |site|
  {
    hide Reachable, RefsIn, Named;
    assert grown[..i + 1] == files[..i] + [files[i]];
    forall g | g in Named(site, files[i])
      ensures Reachable(site, RefsIn(Absolute, page), g)
    {
      NextReachable(site, RefsIn(Absolute, page), files[i], g);
    }
    NoMoreThan(grown[..i + 1], site.Keys);
  }

  lemma WalkedStart(site: Site, page: string, files: seq<string>)
    requires Lists(files, RefsIn(Absolute, page))
    ensures Walked(site, page, files, 0)
  {
    hide RefsIn, Reachable, Named;
    forall f | f in files
      ensures Reachable(site, RefsIn(Absolute, page), f)
    {
      RootReachable(site, RefsIn(Absolute, page), f);
    }
  }

  lemma WalkedSoFar(site: Site, page: string, files: seq<string>, i: nat, k: nat)
    requires Walked(site, page, files, i) && k <= |files|
    ensures i <= |files| && Distinct(files) && OnlyReachable(site, page, files[..k])
    ensures i < |files| ==> Reachable(site, RefsIn(Absolute, page), files[i])
  {
    hide RefsIn, Reachable, Named;
  }

  lemma FetchedOne(site: Site, page: string, files: seq<string>, i: nat, grown: seq<string>, folder: Folder)
    requires Walked(site, page, files, i) && i < |files| && files[i] in site && Holds(folder, site, files[..i])
    requires Distinct(grown) && files <= grown
    requires forall f :: f in grown <==> f in files || f in Named(site, files[i])
    ensures Walked(site, page, grown, i + 1) && i < |site| && IsAsset(files[i])
    ensures Holds(folder[Place(files[i]) := site[files[i]]], site, grown[..i + 1])
  {
    hide Reachable, RefsIn, Named, Walked, Holds, Distinct;
    WalkedOn(site, page, files, i, grown);
    WalkedSoFar(site, page, files, i, i);
    ReachableIsAsset(site, page, files[i]);
    HoldsOneMore(folder, site, files[..i], files[i]);
    assert files[..i] + [files[i]] == grown[..i + 1];
  }

  /** The worklist and the folder it fills, part of the way through. */
  ghost predicate Progress(site: Site, page: string, files: seq<string>, i: nat, folder: Folder) {
    Walked(site, page, files, i) && Holds(folder, site, files[..i])
  }

  lemma ProgressStarts(site: Site, page: string, roots: seq<string>)
    requires Walked(site, page, roots, 0)
    ensures Progress(site, page, roots, 0, map[])
  {
    hide Walked;
  }

  lemma ProgressReaches(site: Site, page: string, files: seq<string>, i: nat, k: nat, folder: Folder)
    requires Progress(site, page, files, i, folder) && k <= |files|
    ensures OnlyReachable(site, page, files[..k])
    ensures i < |files| ==> Reachable(site, RefsIn(Absolute, page), files[i])
  {
    WalkedSoFar(site, page, files, i, k);
    hide Walked, Holds;
  }

  lemma ProgressEnds(site: Site, page: string, files: seq<string>, folder: Folder)
    requires Progress(site, page, files, |files|, folder)
    ensures Walked(site, page, files, |files|) && Holds(folder, site, files) && OnlyReachable(site, page, files)
  {
    assert files[..|files|] == files;
    WalkedSoFar(site, page, files, |files|, |files|);
    hide Walked, Holds, Distinct;
  }

  lemma MissingOne(site: Site, page: string, f: string)
    requires Reachable(site, RefsIn(Absolute, page), f)
    ensures f !in site ==> !Complete(site, page)
  {
  }

  class Updater {
    /** The page built into the app, below which it never falls. */
    const embedded: Option<Body>
    var current: Option<Folder>
    var staging: Option<Folder>
    /** How many more disk operations will succeed. */
    var writes: nat

    function CurrentIndex(): Option<Body>
      reads this
    {
      if current.Some? && "index.html" in current.value then Some(current.value["index.html"]) else embedded
    }

    method Disk() returns (ok: bool)
      modifies this`writes
      ensures ok <==> old(writes) > 0
      ensures writes == if ok then old(writes) - 1 else 0
    {
      ok := writes > 0;
      if ok {
        writes := writes - 1;
      }
    }

    /** Fetch the next file on the worklist, stage it, and put what it names on the list. */
    method FetchOne(site: Site, page: string, files: seq<string>, i: nat) returns (ok: bool, grown: seq<string>)
      requires staging.Some? && Progress(site, page, files, i, staging.value) && i < |files|
      modifies this`staging, this`writes
      ensures ok ==> i < |site| && staging.Some? && Progress(site, page, grown, i + 1, staging.value) && i + 1 <= |grown|
      ensures !ok ==> writes == 0 || files[i] !in site
    {
      var rel := files[i];
      grown := files;
      ok := rel in site;
      if ok {
        WalkedSoFar(site, page, files, i, i);
        hide Reachable, RefsIn, Named, Walked, Holds, Distinct;
        grown := Follow(site, files, rel);
        FetchedOne(site, page, files, i, grown, staging.value);
        // The folder it goes in, and the file itself.
        ok := writes >= 2;
        writes := if ok then writes - 2 else 0;
        if ok {
          staging := Some(staging.value[Place(rel) := site[rel]]);
        }
      }
    }

    /** Work through the list until nothing on it names anything new. */
    method FetchAll(site: Site, page: string, roots: seq<string>) returns (done: bool, fetched: seq<string>)
      requires Walked(site, page, roots, 0) && staging == Some(map[])
      modifies this`staging, this`writes
      ensures OnlyReachable(site, page, fetched)
      ensures done ==>
                && Walked(site, page, fetched, |fetched|)
                && staging.Some? && Holds(staging.value, site, fetched)
      ensures !done ==> writes == 0 || !Complete(site, page)
    {
      var files, i := roots, 0;
      ProgressStarts(site, page, roots);
      ghost var bound := |site|;
      hide *;
      while i < |files|
        invariant i <= bound && i <= |files| && staging.Some? && Progress(site, page, files, i, staging.value)
        decreases bound - i
      {
        ProgressReaches(site, page, files, i, i + 1, staging.value);
        var ok, grown := FetchOne(site, page, files, i);
        if !ok {
          MissingOne(site, page, files[i]);
          return false, files[..i + 1];
        }
        files, i := grown, i + 1;
      }
      ProgressEnds(site, page, files, staging.value);
      done, fetched := true, files;
    }

    /** Fetch what a page leads to, each file once, into the staging folder. */
    method Stage(site: Site, page: string) returns (done: bool, fetched: seq<string>)
      modifies this`staging, this`writes
      ensures OnlyReachable(site, page, fetched)
      ensures done ==>
                && staging.Some? && IsBundle(staging.value, site, page) && Complete(site, page)
                && forall f :: Reachable(site, RefsIn(Absolute, page), f) ==> f in fetched
      ensures !done ==> writes == 0 || !Complete(site, page)
    {
      staging := None;
      var roots := AssetRefs(page);
      fetched := [];
      done := Disk();
      if done {
        staging := Some(map[]);
        WalkedStart(site, page, roots);
        hide Reachable, RefsIn, Named, IsBundle, Walked, Holds, Distinct, Complete, OnlyReachable;
        done, fetched := FetchAll(site, page, roots);
        if done {
          BundleStands(staging.value, site, page, fetched);
          done := Disk();
          if done {
            staging := Some(staging.value["index.html" := Text(page)]);
          }
        }
      }
    }

    /** One check. The running bundle changes only once everything has landed, and
        the one failure that can cost it, the last rename, leaves the new one staged. */
    method CheckForUpdate(site: Site) returns (outcome: Outcome, fetched: seq<string>)
      modifies this
      ensures outcome.Kept? <==>
                && "/index.html" in site && site["/index.html"].Text?
                && (!Contains(site["/index.html"].text, "name=\"yappy-desktop\"") || old(CurrentIndex()) == Some(site["/index.html"]))
      ensures outcome.Kept? ==> current == old(current) && staging == old(staging)
      ensures outcome.Updated? ==>
                && "/index.html" in site && site["/index.html"].Text?
                && var page := site["/index.html"].text;
                && Contains(page, "name=\"yappy-desktop\"") && CurrentIndex() == Some(Text(page))
                && current.Some? && IsBundle(current.value, site, page)
                && forall f :: Reachable(site, RefsIn(Absolute, page), f) <==> f in fetched
      ensures Distinct(fetched)
      ensures outcome.Failed? ==>
                || current == old(current)
                || (&& current == None && writes == 0 && staging.Some?
                    && "/index.html" in site && site["/index.html"].Text?
                    && IsBundle(staging.value, site, site["/index.html"].text)
                    && Complete(site, site["/index.html"].text))
      ensures outcome.Failed? && writes > 0 ==>
                || "/index.html" !in site || site["/index.html"].Binary?
                || !Complete(site, site["/index.html"].text)
    {
      fetched := [];
      if "/index.html" !in site || site["/index.html"].Binary? {
        return Failed, fetched;
      }
      var page := site["/index.html"].text;
      if !Contains(page, MARKER) {
        return Kept, fetched;
      }
      if CurrentIndex() == Some(site["/index.html"]) {
        return Kept, fetched;
      }
      var done;
      done, fetched := Stage(site, page);
      hide Reachable, RefsIn, Contains;
      if !done {
        return Failed, fetched;
      }
      var removed := Disk();
      if removed {
        current := None;
      }
      var renamed := Disk();
      if !renamed {
        return Failed, fetched;
      }
      current, staging := staging, None;
      outcome := Updated;
    }
  }
}
