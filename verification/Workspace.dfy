/** The disposable checkout: inspecting a tree, and capturing what the editor changed as a
    patch. Git and the file system are an abstract map from paths to entries. */
module Workspace {
  import opened Prelude
  import opened Ordering
  import opened TaskContracts

  /** Names found by walking a workspace: directories, regular files, and everything else; an entry of
      a directory that may be listed but not searched cannot be examined. */
  datatype Entry = Directory(listable: bool) | Regular(file: File, links: nat, readable: bool) | Special | Unreachable

  type Tree = map<string, Entry>
  type Checkout = map<string, File>
  type Commit = map<string, Blob>

  datatype Fingerprint = Fingerprint(sha256: Digest, executable: bool)
  type Listing = map<string, Fingerprint>

  datatype Fault =
    | Misconfigured            // AgentConfigError
    | Exceeded(wallClock: bool) // CeilingExceeded
    | Boundary                 // ValueError or OSError

  /** An inspection records whether anyone may execute a file. */
  function Print(f: File): Fingerprint {
    Fingerprint(OfBytes(f.content), f.owner || f.others)
  }

  /** The regular files of a tree. */
  function Contents(t: Tree): Checkout {
    map name | name in t && t[name].Regular? :: t[name].file
  }

  function Listed(c: Checkout): Listing {
    map name | name in c :: Print(c[name])
  }

  /** What committing a checkout records. */
  function Committed(c: Checkout): Commit {
    map name | name in c :: Blob(c[name].content, c[name].owner)
  }

  /** The files written for a commit: executable for everyone or for no one. */
  function CheckedOut(c: Commit): Checkout {
    map name | name in c :: File(c[name].content, c[name].executable, c[name].executable)
  }

  ghost predicate Plain(c: Checkout) {
    forall name :: name in c ==> c[name].owner == c[name].others
  }

  lemma CheckoutIsPlain(c: Commit)
    ensures Plain(CheckedOut(c)) && Committed(CheckedOut(c)) == c
  {
  }

  /** Equal listings mean the same names, the same bytes, and the same answer to whether anyone may
      execute each file; who may is not recorded. */
  lemma ListingsTell(a: Checkout, b: Checkout)
    ensures Listed(a) == Listed(b) <==>
              && a.Keys == b.Keys
              && forall name :: name in a ==>
                   a[name].content == b[name].content && (a[name].owner || a[name].others) == (b[name].owner || b[name].others)
  {
    if Listed(a) == Listed(b) {
      assert a.Keys == Listed(a).Keys == b.Keys;
      forall name | name in a
        ensures Print(a[name]) == Print(b[name])
      {
        assert Listed(a)[name] == Print(a[name]) && Listed(b)[name] == Print(b[name]);
      }
    } else if a.Keys == b.Keys {
      assert Listed(a).Keys == Listed(b).Keys;
      var name :| name in a && Listed(a)[name] != Listed(b)[name];
      assert Print(a[name]) != Print(b[name]);
    }
  }

  // ---------------------------------------------------------------- inspection

  function Lower(c: char): char {
    if 'A' <= c <= 'Z' then c + ' ' else c
  }

  predicate IsGitName(s: string) {
    |s| == 4 && s[0] == '.' && Lower(s[1]) == 'g' && Lower(s[2]) == 'i' && Lower(s[3]) == 't'
  }

  function BaseName(path: string): string {
    var parts := Segments(path);
    if parts == [] then path else parts[|parts| - 1]
  }

  predicate Allowed(name: string, e: Entry) {
    && RelativePath(name)
    && (|| e.Unreachable?
        || (!IsGitName(BaseName(name)) && ((e.Directory? && e.listable) || (e.Regular? && e.links == 1))))
  }

  /** Nothing about the entry fails with an operating system error. */
  predicate Readable(e: Entry) {
    !e.Unreachable? && (e.Regular? ==> e.readable)
  }

  function SizeOf(e: Entry): nat {
    if e.Regular? then |e.file.content| else 0
  }

  ghost function Pick(names: set<string>): (n: string)
    requires names != {}
    ensures n in names
  {
    var n :| n in names; n
  }

  ghost function SizeOfAll(t: Tree, names: set<string>): nat
    requires names <= t.Keys
  {
    if names == {} then 0 else SizeOf(t[Pick(names)]) + SizeOfAll(t, names - {Pick(names)})
  }

  lemma {:induction false} SizeOfOne(t: Tree, names: set<string>, n: string)
    requires names <= t.Keys && n in names
    ensures SizeOfAll(t, names) == SizeOf(t[n]) + SizeOfAll(t, names - {n})
    decreases names
  {
    var m := Pick(names);
    if m != n {
      SizeOfOne(t, names - {m}, n);
      SizeOfOne(t, names - {n}, m);
      assert names - {m} - {n} == names - {n} - {m};
    }
  }

  lemma {:induction false} SizeOfSubset(t: Tree, part: set<string>, names: set<string>)
    requires part <= names <= t.Keys
    ensures SizeOfAll(t, part) <= SizeOfAll(t, names)
    decreases names
  {
    if n: string :| n in names && n !in part {
      SizeOfOne(t, names, n);
      SizeOfSubset(t, part, names - {n});
    } else {
      assert part == names;
    }
  }

  ghost predicate FilesFit(t: Tree, maxBytes: int, maxFileBytes: int) {
    && (forall name :: name in t ==> SizeOf(t[name]) <= maxFileBytes)
    && SizeOfAll(t, t.Keys) <= maxBytes && |Contents(t)| <= 1000
  }

  /** A tree that can be inspected, whatever order it is walked in. */
  ghost predicate Inspectable(t: Tree, maxBytes: int, maxFileBytes: int) {
    && (forall name :: name in t ==> Allowed(name, t[name]) && Readable(t[name]))
    && FilesFit(t, maxBytes, maxFileBytes)
  }

  /** The first `i` names of a list. */
  ghost function Upto(names: seq<string>, i: nat): set<string>
    requires i <= |names|
  {
    set j | 0 <= j < i :: names[j]
  }

  lemma UptoStep(names: seq<string>, i: nat)
    requires i < |names|
    ensures Upto(names, i + 1) == Upto(names, i) + {names[i]}
    ensures (forall j :: 0 <= j < i ==> names[j] != names[i]) ==> names[i] !in Upto(names, i)
  {
  }

  lemma UptoAll(names: seq<string>, all: set<string>)
    requires forall n :: n in names <==> n in all
    ensures Upto(names, |names|) == all
    ensures forall i :: 0 <= i <= |names| ==> Upto(names, i) <= all
  {
  }

  /** Some order in which the names of a tree are walked. */
  method Walk(names: set<string>) returns (walk: seq<string>)
    ensures (forall n :: n in walk <==> n in names) && |walk| == |names|
    ensures forall i, j :: 0 <= i < j < |walk| ==> walk[i] != walk[j]
  {
    walk := [];
    var left := names;
    while left != {}
      invariant left <= names && (forall n :: n in walk <==> n in names - left)
      invariant |walk| == |names - left|
      invariant forall i, j :: 0 <= i < j < |walk| ==> walk[i] != walk[j]
      decreases left
    {
      var n :| n in left;
      assert names - (left - {n}) == names - left + {n};
      walk := walk + [n];
      left := left - {n};
    }
  }

  ghost predicate AllFine(t: Tree, done: set<string>, maxFileBytes: int) {
    forall n :: n in done ==> n in t && Allowed(n, t[n]) && Readable(t[n]) && SizeOf(t[n]) <= maxFileBytes
  }

  /** One more walked name: the running total grows by its size and never passes the full total. */
  lemma OneMore(t: Tree, done: set<string>, name: string)
    requires done <= t.Keys && name in t && name !in done
    ensures SizeOfAll(t, done + {name}) == SizeOfAll(t, done) + SizeOf(t[name]) <= SizeOfAll(t, t.Keys)
  {
    SizeOfOne(t, done + {name}, name);
    assert done + {name} - {name} == done;
    SizeOfSubset(t, done + {name}, t.Keys);
  }

  /** The listing of the files among the names done so far. */
  ghost predicate IsPart(files: Listing, t: Tree, done: set<string>) {
    && files.Keys == Contents(t).Keys * done
    && forall n :: n in files ==> files[n] == Print(t[n].file)
  }

  lemma ListOne(files: Listing, t: Tree, done: set<string>, name: string)
    requires IsPart(files, t, done) && name in t && name !in done
    ensures var files' := if t[name].Regular? then files[name := Print(t[name].file)] else files;
            IsPart(files', t, done + {name}) && |files'| <= |Contents(t)|
  {
    var files' := if t[name].Regular? then files[name := Print(t[name].file)] else files;
    assert files'.Keys == Contents(t).Keys * (done + {name});
    SubsetSize(files'.Keys, Contents(t).Keys);
  }

  /** The state of an inspection that has walked `i` names without a refusal. */
  ghost predicate Going(t: Tree, walk: seq<string>, i: nat, files: Listing, total: int, maxBytes: int, maxFileBytes: int) {
    && i <= |walk| && Upto(walk, i) <= t.Keys
    && AllFine(t, Upto(walk, i), maxFileBytes)
    && total == SizeOfAll(t, Upto(walk, i)) && total <= maxBytes
    && IsPart(files, t, Upto(walk, i)) && |files| <= 1000
  }

  lemma NothingDone(t: Tree, walk: seq<string>, maxBytes: nat, maxFileBytes: nat)
    ensures Going(t, walk, 0, map[], 0, maxBytes, maxFileBytes)
  {
  }

  lemma GoOn(t: Tree, walk: seq<string>, i: nat, files: Listing, total: int, maxBytes: int, maxFileBytes: int)
    requires i < |walk| && Going(t, walk, i, files, total, maxBytes, maxFileBytes)
    requires forall j :: 0 <= j < i ==> walk[j] != walk[i]
    requires walk[i] in t && Allowed(walk[i], t[walk[i]])
    ensures var e := t[walk[i]];
            var total' := total + SizeOf(e);
            var files' := if e.Regular? then files[walk[i] := Print(e.file)] else files;
            if SizeOf(e) <= maxFileBytes && total' <= maxBytes && |files'| <= 1000
            then Readable(e) ==> Going(t, walk, i + 1, files', total', maxBytes, maxFileBytes)
            else !FilesFit(t, maxBytes, maxFileBytes) && !Inspectable(t, maxBytes, maxFileBytes)
  {
    hide Allowed, SizeOfAll, IsPart, Upto;
    var done := Upto(walk, i);
    UptoStep(walk, i);
    OneMore(t, done, walk[i]);
    ListOne(files, t, done, walk[i]);
  }

  lemma AllDone(t: Tree, files: Listing, maxBytes: int, maxFileBytes: int)
    requires IsPart(files, t, t.Keys) && AllFine(t, t.Keys, maxFileBytes)
    requires SizeOfAll(t, t.Keys) <= maxBytes && |files| <= 1000
    ensures files == Listed(Contents(t)) && Inspectable(t, maxBytes, maxFileBytes)
  {
    hide Allowed, Readable, SizeOf, Print;
    AllListed(t, files);
    assert |files| == |files.Keys| == |Contents(t)|;
  }

  lemma AllListed(t: Tree, files: Listing)
    requires IsPart(files, t, t.Keys)
    ensures files.Keys == Contents(t).Keys && files == Listed(Contents(t))
  {
    hide Print;
    assert files.Keys == Contents(t).Keys;
  }

  /** `inspect_tree`: succeeds exactly on the inspectable trees, and lists their files. */
  method InspectTree(t: Tree, maxBytes: nat, maxFileBytes: nat) returns (r: Result<Listing, Fault>)
    ensures r.Ok? <==> Inspectable(t, maxBytes, maxFileBytes)
    ensures r.Ok? ==> r.value == Listed(Contents(t))
    ensures r.Err? && r.error == Misconfigured ==> exists name :: name in t && !Allowed(name, t[name])
    ensures r.Err? && r.error == Boundary ==> exists name :: name in t && !Readable(t[name])
    ensures r.Err? && r.error.Exceeded? ==> r.error == Exceeded(false) && !FilesFit(t, maxBytes, maxFileBytes)
  {
    hide Allowed, FilesFit, Going, Contents, Listed, Inspectable;
    var walk := Walk(t.Keys);
    var files: Listing := map[];
    var total := 0;
    NothingDone(t, walk, maxBytes, maxFileBytes);
    var i := 0;
    while i < |walk|
      invariant i <= |walk| && total <= maxBytes && |files| <= 1000
      invariant Going(t, walk, i, files, total, maxBytes, maxFileBytes)
    {
      var name := walk[i];
      var e := t[name];
      if !Allowed(name, e) {
        Forbidden(t, name, maxBytes, maxFileBytes);
        return Err(Misconfigured);
      }
      if !Readable(e) {
        Unread(t, name, maxBytes, maxFileBytes);
      }
      if e.Unreachable? {
        return Err(Boundary);
      }
      GoOn(t, walk, i, files, total, maxBytes, maxFileBytes);
      if e.Regular? {
        total := total + SizeOf(e);
        if SizeOf(e) > maxFileBytes || total > maxBytes {
          return Err(Exceeded(false));
        }
        if !e.readable {
          return Err(Boundary);
        }
        files := files[name := Print(e.file)];
        if |files| > 1000 {
          return Err(Exceeded(false));
        }
      }
      i := i + 1;
    }
    Concluded(t, walk, files, total, maxBytes, maxFileBytes);
    r := Ok(files);
  }

  lemma Forbidden(t: Tree, name: string, maxBytes: int, maxFileBytes: int)
    requires name in t && !Allowed(name, t[name])
    ensures !Inspectable(t, maxBytes, maxFileBytes)
  {
    hide Allowed, FilesFit;
  }

  lemma Unread(t: Tree, name: string, maxBytes: int, maxFileBytes: int)
    requires name in t && !Readable(t[name])
    ensures !Inspectable(t, maxBytes, maxFileBytes)
  {
    hide Allowed, FilesFit, Readable;
  }

  lemma Concluded(t: Tree, walk: seq<string>, files: Listing, total: int, maxBytes: int, maxFileBytes: int)
    requires Going(t, walk, |walk|, files, total, maxBytes, maxFileBytes)
    requires forall n :: n in walk <==> n in t
    ensures files == Listed(Contents(t)) && Inspectable(t, maxBytes, maxFileBytes)
  {
    hide Allowed, IsPart, AllFine, Inspectable;
    UptoAll(walk, t.Keys);
    AllDone(t, files, maxBytes, maxFileBytes);
  }

  lemma SubsetSize<T>(a: set<T>, b: set<T>)
    requires a <= b
    ensures |a| <= |b|
  {
    assert b == a + (b - a);
  }

  // ---------------------------------------------------------------- what changed

  predicate Differ(before: Listing, after: Listing, name: string) {
    if name in before && name in after then before[name] != after[name] else name in before || name in after
  }

  function OperationOf(before: Listing, after: Listing, name: string): Operation {
    if name !in before then Added else if name !in after then Deleted else Modified
  }

  /** The complete, ordered list of the paths whose listing changed. */
  ghost predicate IsChangeList(cs: seq<ChangedFile>, before: Listing, after: Listing) {
    && (forall i, j :: 0 <= i < j < |cs| ==> TextLess(cs[i].path, cs[j].path))
    && (forall i :: 0 <= i < |cs| ==>
          Differ(before, after, cs[i].path) && cs[i].operation == OperationOf(before, after, cs[i].path))
    && (forall name :: Differ(before, after, name) ==> exists i :: 0 <= i < |cs| && cs[i].path == name)
  }

  ghost function ChangedNames(before: Listing, after: Listing): set<string> {
    set name | name in before.Keys + after.Keys && Differ(before, after, name)
  }

  /** The patch from one commit to another. */
  function DiffOf(before: Commit, after: Commit): Diff {
    map name | name in before.Keys + after.Keys
               && !(name in before && name in after && before[name] == after[name]) ::
      (if name in after then Some(after[name]) else None)
  }

  function Apply(d: Diff, base: Commit): Commit {
    map name | name in base.Keys + d.Keys && (if name in d then d[name].Some? else true) ::
      (if name in d then d[name].value else base[name])
  }

  /** Applying the difference of two commits to the first gives the second. */
  lemma PatchReproduces(before: Commit, after: Commit)
    ensures Apply(DiffOf(before, after), before) == after
  {
  }

  /** What the patch between two checkouts changes. */
  function PatchOf(base: Checkout, now: Checkout): Diff {
    DiffOf(Committed(base), Committed(now))
  }

  /** A file whose bytes are unchanged, and which others may execute but not its owner. */
  predicate Stray(base: Checkout, now: Checkout, name: string) {
    && name in base && name in now && base[name].content == now[name].content
    && now[name].others && !now[name].owner
  }

  ghost predicate Owned(base: Checkout, now: Checkout) {
    forall name :: !Stray(base, now, name)
  }

  /** A stray file that was executable: recorded as changed, and not listed as changed. */
  predicate Hidden(base: Checkout, now: Checkout, name: string) {
    Stray(base, now, name) && base[name].owner
  }

  /** Inspection and version control look at different execute bits. Over a checkout as it was written,
      a path is listed as changed exactly when the patch touches it, unless it is stray. */
  lemma ListedIffPatched(base: Checkout, now: Checkout, name: string)
    requires Plain(base)
    ensures (Differ(Listed(base), Listed(now), name) <==> name in PatchOf(base, now)) <==> !Stray(base, now, name)
    ensures Stray(base, now, name) ==> (name in PatchOf(base, now) <==> Hidden(base, now, name))
  {
    if name in base && name in now {
      assert Listed(base)[name] == Print(base[name]) && Listed(now)[name] == Print(now[name]);
      assert Committed(base)[name] == Blob(base[name].content, base[name].owner);
      assert Committed(now)[name] == Blob(now[name].content, now[name].owner);
    }
  }

  /** The listed changes are exactly the paths the patch touches, `deleted` exactly where it deletes,
      when no file is stray; in general they differ by the stray ones. */
  lemma ChangeListMatchesPatch(cs: seq<ChangedFile>, base: Checkout, now: Checkout)
    requires Plain(base) && IsChangeList(cs, Listed(base), Listed(now))
    ensures forall name :: name in PatchOf(base, now) <==>
              Hidden(base, now, name) || (InList(cs, name) && !Stray(base, now, name))
    ensures (forall name :: name in PatchOf(base, now) <==> InList(cs, name)) <==> Owned(base, now)
    ensures forall i :: 0 <= i < |cs| && cs[i].path in PatchOf(base, now) ==>
              (cs[i].operation == Deleted <==> PatchOf(base, now)[cs[i].path].None?)
    ensures cs == [] <==> Listed(base) == Listed(now)
  {
    hide Stray, Hidden, PatchOf;
    forall name
      ensures InList(cs, name) <==> Differ(Listed(base), Listed(now), name)
      ensures (InList(cs, name) <==> name in PatchOf(base, now)) <==> !Stray(base, now, name)
      ensures Stray(base, now, name) ==> (name in PatchOf(base, now) <==> Hidden(base, now, name))
      ensures Hidden(base, now, name) ==> Stray(base, now, name)
    {
      ListedIffPatched(base, now, name);
      HiddenIsStray(base, now, name);
    }
    forall i | 0 <= i < |cs| && cs[i].path in PatchOf(base, now)
      ensures cs[i].operation == Deleted <==> PatchOf(base, now)[cs[i].path].None?
    {
      Deletions(base, now, cs[i].path);
    }
    NoDifference(Listed(base), Listed(now));
    if cs != [] {
      assert Differ(Listed(base), Listed(now), cs[0].path);
    }
  }

  predicate InList(cs: seq<ChangedFile>, name: string) {
    exists i :: 0 <= i < |cs| && cs[i].path == name
  }

  lemma HiddenIsStray(base: Checkout, now: Checkout, name: string)
    ensures Hidden(base, now, name) ==> Stray(base, now, name)
  {
  }

  lemma Deletions(base: Checkout, now: Checkout, name: string)
    requires Differ(Listed(base), Listed(now), name) && name in PatchOf(base, now)
    ensures OperationOf(Listed(base), Listed(now), name) == Deleted <==> PatchOf(base, now)[name].None?
  {
  }

  lemma NoDifference(a: Listing, b: Listing)
    ensures (forall name :: !Differ(a, b, name)) <==> a == b
  {
    if forall name :: !Differ(a, b, name) {
      forall name
        ensures name in a <==> name in b
      {
        assert !Differ(a, b, name);
      }
      forall name | name in a
        ensures a[name] == b[name]
      {
        assert !Differ(a, b, name);
      }
    }
  }

  /** A listed operation is what happened to the path: added where it was not, deleted where it is not, and
      modified where it was and is. */
  lemma OperationsTell(cs: seq<ChangedFile>, base: Checkout, now: Checkout, i: nat)
    requires IsChangeList(cs, Listed(base), Listed(now)) && i < |cs|
    ensures var c := cs[i];
            && (c.operation == Added <==> c.path !in base && c.path in now)
            && (c.operation == Deleted <==> c.path in base && c.path !in now)
            && (c.operation == Modified <==> c.path in base && c.path in now)
  {
  }

  /** An entry that is allowed has a name whose last piece is not `.git` in any spelling, and is a directory
      that can be listed, a regular file with one link, or cannot be examined at all. */
  lemma AllowedMeans(name: string, e: Entry)
    ensures Allowed(name, e) <==>
              && RelativePath(name)
              && (match e
                  case Unreachable => true
                  case Special => false
                  case Directory(listable) => listable
                  case Regular(_, links, _) => links == 1)
              && (e.Unreachable? ||
                  !(var last := BaseName(name);
                    |last| == 4 && last[0] == '.' && last[1] in {'g', 'G'} && last[2] in {'i', 'I'} && last[3] in {'t', 'T'}))
  {
    var last := BaseName(name);
    if |last| == 4 {
      assert Lower(last[1]) == 'g' <==> last[1] in {'g', 'G'};
      assert Lower(last[2]) == 'i' <==> last[2] in {'i', 'I'};
      assert Lower(last[3]) == 't' <==> last[3] in {'t', 'T'};
    }
  }

  /** A change list is as long as the set of changed names. */
  lemma ListLength(cs: seq<ChangedFile>, before: Listing, after: Listing)
    requires IsChangeList(cs, before, after)
    ensures |cs| == |ChangedNames(before, after)|
  {
    hide Differ, OperationOf, TextLess;
    var names := set i | 0 <= i < |cs| :: cs[i].path;
    forall i, j | 0 <= i < j < |cs|
      ensures cs[i].path != cs[j].path
    {
      TextLessTotal(cs[i].path, cs[j].path);
    }
    CountDistinct(cs, |cs|);
    forall name
      ensures name in names <==> name in ChangedNames(before, after)
    {
      DifferingName(before, after, name);
    }
    assert names == ChangedNames(before, after);
  }

  lemma DifferingName(before: Listing, after: Listing, name: string)
    ensures Differ(before, after, name) <==> name in ChangedNames(before, after)
  {
  }

  lemma {:induction false} CountDistinct(cs: seq<ChangedFile>, n: nat)
    requires n <= |cs| && forall i, j :: 0 <= i < j < |cs| ==> cs[i].path != cs[j].path
    ensures |set i | 0 <= i < n :: cs[i].path| == n
  {
    if n > 0 {
      CountDistinct(cs, n - 1);
      var before := set i | 0 <= i < n - 1 :: cs[i].path;
      assert (set i | 0 <= i < n :: cs[i].path) == before + {cs[n - 1].path};
    }
  }

  method SortedNames(names: set<string>) returns (sorted: seq<string>)
    ensures forall n :: n in sorted <==> n in names
    ensures forall i, j :: 0 <= i < j < |sorted| ==> TextLess(sorted[i], sorted[j])
  {
    var walk := Walk(names);
    sorted := Sort(walk, TextLeq);
    TextOrder();
    SortSorts(walk, TextLeq);
    forall n
      ensures n in sorted <==> n in names
    {
      assert n in sorted <==> n in multiset(sorted);
      assert n in walk <==> n in multiset(walk);
    }
    Distinct(walk, sorted);
    forall i, j | 0 <= i < j < |sorted|
      ensures TextLess(sorted[i], sorted[j])
    {
      assert TextLeq(sorted[i], sorted[j]);
    }
  }

  lemma Distinct(walk: seq<string>, sorted: seq<string>)
    requires multiset(walk) == multiset(sorted)
    requires forall i, j :: 0 <= i < j < |walk| ==> walk[i] != walk[j]
    ensures forall i, j :: 0 <= i < j < |sorted| ==> sorted[i] != sorted[j]
  {
    forall i, j | 0 <= i < j < |sorted|
      ensures sorted[i] != sorted[j]
    {
      if sorted[i] == sorted[j] {
        var n := sorted[i];
        Twice(sorted, i, j);
        AtMostOnce(walk, n);
      }
    }
  }

  lemma Twice(s: seq<string>, i: nat, j: nat)
    requires i < j < |s| && s[i] == s[j]
    ensures multiset(s)[s[i]] >= 2
  {
    assert s == s[..i] + [s[i]] + s[i + 1..];
    assert s[j] in s[i + 1..] by {
      assert s[i + 1..][j - i - 1] == s[j];
    }
  }

  lemma {:induction false} AtMostOnce(s: seq<string>, n: string)
    requires forall i, j :: 0 <= i < j < |s| ==> s[i] != s[j]
    ensures multiset(s)[n] <= 1
  {
    if s != [] {
      AtMostOnce(s[1..], n);
      assert s == [s[0]] + s[1..];
      if n == s[0] {
        assert n !in s[1..];
      }
    }
  }

  // ---------------------------------------------------------------- capture

  /** A patch and its artifact, as they are taken from `now`: the patch is the difference of what is
      recorded, the list is that of what is inspected. */
  ghost predicate Describes(base: Checkout, now: Checkout, writePaths: seq<string>, maxOutputBytes: int,
                            p: Option<Patch>, a: Option<Artifact>)
  {
    && (p.Some? <==> a.Some?) && (p.None? <==> Listed(now) == Listed(base))
    && (p.Some? ==>
          && p.value.Valid() && p.value.artifactId == "changes"
          && p.value.sha256 == OfDiff(PatchOf(base, now))
          && IsChangeList(p.value.files, Listed(base), Listed(now))
          && (forall i :: 0 <= i < |p.value.files| ==> Permitted(p.value.files[i].path, writePaths))
          && a.value.Valid() && a.value.id == "changes" && a.value.kind == APatch
          && a.value.sha256 == p.value.sha256 && 0 <= a.value.size <= maxOutputBytes)
  }

  /** What the evidence is meant to say: no patch means that nothing to record has changed; a patch
      turns the base into exactly what `now` records, touches exactly the listed files, and all of
      them lie under a permitted path. */
  ghost predicate Exactly(base: Checkout, now: Checkout, writePaths: seq<string>, p: Option<Patch>) {
    if p.None? then Committed(now) == Committed(base)
    else
      && p.value.sha256.OfDiff? && Apply(p.value.sha256.diff, Committed(base)) == Committed(now)
      && (forall name :: name in p.value.sha256.diff <==> InList(p.value.files, name))
      && (forall name :: name in p.value.sha256.diff ==> Permitted(name, writePaths))
  }

  /** The evidence says so if and only if no file is stray. In any case the patch reproduces what is
      recorded, and touches a path that is not permitted only where it is hidden. */
  lemma EvidenceReproduces(base: Checkout, now: Checkout, writePaths: seq<string>, maxOutputBytes: int,
                           p: Option<Patch>, a: Option<Artifact>)
    requires Plain(base) && Describes(base, now, writePaths, maxOutputBytes, p, a)
    ensures Exactly(base, now, writePaths, p) <==> Owned(base, now)
    ensures p.None? ==> forall name :: name in PatchOf(base, now) <==> Hidden(base, now, name)
    ensures p.Some? ==>
              && p.value.sha256.OfDiff? && Apply(p.value.sha256.diff, Committed(base)) == Committed(now)
              && forall name :: name in p.value.sha256.diff ==> Permitted(name, writePaths) || Hidden(base, now, name)
  {
    hide Permitted, Stray, Hidden, Differ, Listed, IsChangeList, Committed, DiffOf, Apply, Plain;
    PatchReproduces(Committed(base), Committed(now));
    if p.Some? {
      ChangeListMatchesPatch(p.value.files, base, now);
      forall name | name in p.value.sha256.diff && !Hidden(base, now, name)
        ensures Permitted(name, writePaths)
      {
        assert InList(p.value.files, name);
      }
    } else {
      NoListNoPatch(base, now);
    }
  }

  /** Between checkouts with the same listing the patch touches the hidden files only. */
  lemma NoListNoPatch(base: Checkout, now: Checkout)
    requires Plain(base) && Listed(now) == Listed(base)
    ensures forall name :: name in PatchOf(base, now) <==> Hidden(base, now, name)
    ensures Committed(now) == Committed(base) <==> Owned(base, now)
  {
    hide Stray, Hidden, Listed, Differ, DiffOf, Owned;
    NoDifference(Listed(base), Listed(now));
    var none: seq<ChangedFile> := [];
    assert IsChangeList(none, Listed(base), Listed(now));
    ChangeListMatchesPatch(none, base, now);
    var d := PatchOf(base, now);
    NoPatch(Committed(base), Committed(now), d);
    assert forall name :: !InList(none, name);
    assert (forall name :: name in d <==> InList(none, name)) <==> (forall name :: name !in d);
  }

  lemma NoPatch(before: Commit, after: Commit, d: Diff)
    requires d == DiffOf(before, after)
    ensures (forall name :: name !in d) <==> before == after
  {
    if forall name :: name !in d {
      forall name
        ensures name in before <==> name in after
      {
        assert name !in d;
      }
      forall name | name in before
        ensures before[name] == after[name]
      {
        assert name !in d;
      }
      assert before.Keys == after.Keys;
      assert before == after;
    }
  }

  /** The name of the patch file is a legal artifact. */
  lemma PatchArtifactValid(digest: Digest, size: nat)
    requires size <= 4194304
    ensures Artifact("changes", APatch, "changes.patch", digest, size).Valid()
  {
    PlainName("changes.patch");
  }

  /** What the version-control commands do at one capture. */
  datatype Git = GitWorks(rawSize: nat) | GitFails | GitExpires

  ghost predicate AllPermitted(before: Listing, after: Listing, writePaths: seq<string>) {
    forall name :: Differ(before, after, name) ==> Permitted(name, writePaths) && ContractPath(name)
  }

  /** A tree of which a patch can be taken: it can be inspected, every change is under a permitted path
      of bounded length, there are at most 100, and if there are any, version control works. */
  ghost predicate Capturable(base: Checkout, t: Tree, writePaths: seq<string>, maxOutputBytes: int, git: Git) {
    && Inspectable(t, maxOutputBytes, maxOutputBytes)
    && AllPermitted(Listed(base), Listed(Contents(t)), writePaths)
    && |ChangedNames(Listed(base), Listed(Contents(t)))| <= 100
    && (Listed(base) == Listed(Contents(t)) || (git.GitWorks? && git.rawSize <= maxOutputBytes))
  }

  /** The workspace of one job; `tree` is what the editor can rewrite. */
  class DisposableWorkspace {
    const base: Checkout
    const original: Listing
    const writePaths: seq<string>
    const maxOutputBytes: nat
    var tree: Tree
    var preserve: bool

    ghost predicate Valid() {
      original == Listed(base) && Plain(base) && maxOutputBytes <= 4194304
    }

    constructor (commit: Commit, tree: Tree, c: Configuration)
      requires Contents(tree) == CheckedOut(commit) && c.Valid()
      ensures Valid() && base == CheckedOut(commit) && Committed(base) == commit && this.tree == tree && !preserve
      ensures writePaths == c.writePaths && maxOutputBytes == c.resources.maxOutputBytes
    {
      CheckoutIsPlain(commit);
      this.base, this.tree, this.preserve := CheckedOut(commit), tree, false;
      this.original := Listed(Contents(tree));
      this.writePaths, this.maxOutputBytes := c.writePaths, c.resources.maxOutputBytes;
    }

    /** A patch and its artifact are what is taken from the current tree. */
    ghost predicate Captures(p: Option<Patch>, a: Option<Artifact>)
      reads this
    {
      Describes(base, Contents(tree), writePaths, maxOutputBytes, p, a)
    }

    /** The changes among the names done so far, in order. */
    ghost predicate Partial(changed: seq<ChangedFile>, now: Listing, done: set<string>) {
      && (forall k :: 0 <= k < |changed| ==>
            && changed[k].path in done
            && Differ(original, now, changed[k].path)
            && changed[k].operation == OperationOf(original, now, changed[k].path)
            && Permitted(changed[k].path, writePaths) && ContractPath(changed[k].path))
      && (forall k, m :: 0 <= k < m < |changed| ==> TextLess(changed[k].path, changed[m].path))
      && Covers(changed, now, done)
    }

    /** Every name done so far that differs is listed. */
    ghost predicate Covers(changed: seq<ChangedFile>, now: Listing, done: set<string>) {
      forall n :: n in done && Differ(original, now, n) ==> exists k :: 0 <= k < |changed| && changed[k].path == n
    }

    lemma CoversOneMore(changed: seq<ChangedFile>, now: Listing, done: set<string>, c: ChangedFile)
      requires Covers(changed, now, done)
      ensures Covers(changed + [c], now, done + {c.path})
    {
      hide Differ;
      var after := changed + [c];
      forall n | n in done + {c.path} && Differ(original, now, n)
        ensures exists k :: 0 <= k < |after| && after[k].path == n
      {
        if n == c.path {
          assert after[|changed|].path == n;
        } else {
          var k :| 0 <= k < |changed| && changed[k].path == n;
          assert after[k].path == n;
        }
      }
    }

    lemma OneMoreChange(changed: seq<ChangedFile>, now: Listing, done: set<string>, name: string)
      requires Partial(changed, now, done)
      requires forall n :: n in done ==> TextLess(n, name)
      requires Differ(original, now, name) ==> Permitted(name, writePaths) && ContractPath(name)
      ensures Partial(if Differ(original, now, name)
                      then changed + [ChangedFile(name, OperationOf(original, now, name))] else changed,
                      now, done + {name})
    {
      hide Permitted, ContractPath, TextLess, OperationOf, Differ;
      if Differ(original, now, name) {
        hide Covers;
        CoversOneMore(changed, now, done, ChangedFile(name, OperationOf(original, now, name)));
      }
    }

    /** Changes under permitted paths of bounded length, as far as the names go. */
    ghost predicate PermittedIn(now: Listing, names: set<string>) {
      forall n :: n in names && Differ(original, now, n) ==> Permitted(n, writePaths) && ContractPath(n)
    }

    lemma PermittedMore(now: Listing, done: set<string>, name: string)
      ensures PermittedIn(now, done + {name}) <==>
                PermittedIn(now, done) && (Differ(original, now, name) ==> Permitted(name, writePaths) && ContractPath(name))
    {
      hide Differ, Permitted, ContractPath;
    }

    /** Once every name is done the list is complete. */
    lemma AllDone(changed: seq<ChangedFile>, now: Listing)
      requires Partial(changed, now, original.Keys + now.Keys) && PermittedIn(now, original.Keys + now.Keys)
      ensures AllPermitted(original, now, writePaths) && IsChangeList(changed, original, now)
      ensures forall k :: 0 <= k < |changed| ==> Permitted(changed[k].path, writePaths) && ContractPath(changed[k].path)
    {
      hide ContractPath, Permitted, OperationOf, TextLess;
    }

    lemma NoneDone(names: seq<string>, now: Listing)
      ensures Partial([], now, Upto(names, 0)) && PermittedIn(now, Upto(names, 0))
    {
    }

    lemma Refused(now: Listing, name: string)
      requires Differ(original, now, name) && !(Permitted(name, writePaths) && ContractPath(name))
      ensures !AllPermitted(original, now, writePaths)
    {
      hide ContractPath, Permitted;
    }

    /** The changed paths in order; fails exactly on a change outside the permitted paths, or with a path
        too long for the contract. */
    method ListChanges(now: Listing) returns (changed: seq<ChangedFile>, fault: Option<Fault>)
      ensures fault.None? <==> AllPermitted(original, now, writePaths)
      ensures fault == Some(Misconfigured) ==> exists n :: Differ(original, now, n) && !Permitted(n, writePaths)
      ensures fault.Some? && fault != Some(Misconfigured) ==>
                fault == Some(Boundary) && exists n :: Differ(original, now, n) && !ContractPath(n)
      ensures fault.None? ==> IsChangeList(changed, original, now)
      ensures fault.None? ==> forall k :: 0 <= k < |changed| ==>
                Permitted(changed[k].path, writePaths) && ContractPath(changed[k].path)
    {
      hide ContractPath, Permitted, OperationOf, TextLess, Differ, Partial, PermittedIn, AllPermitted, IsChangeList;
      var names := SortedNames(original.Keys + now.Keys);
      changed, fault := [], None;
      UptoAll(names, original.Keys + now.Keys);
      NoneDone(names, now);
      var i := 0;
      while i < |names|
        invariant i <= |names| && Partial(changed, now, Upto(names, i)) && PermittedIn(now, Upto(names, i))
      {
        var name := names[i];
        if Differ(original, now, name) && !(Permitted(name, writePaths) && ContractPath(name)) {
          Refused(now, name);
        }
        if Differ(original, now, name) && !Permitted(name, writePaths) {
          return changed, Some(Misconfigured);
        }
        if Differ(original, now, name) && !ContractPath(name) {
          return changed, Some(Boundary);
        }
        UptoStep(names, i);
        OneMoreChange(changed, now, Upto(names, i), name);
        PermittedMore(now, Upto(names, i), name);
        if Differ(original, now, name) {
          changed := changed + [ChangedFile(name, OperationOf(original, now, name))];
        }
        i := i + 1;
      }
      AllDone(changed, now);
    }

    /** `capture`: succeeds exactly on a capturable tree, with the patch of that tree. */
    method Capture(git: Git) returns (p: Option<Patch>, a: Option<Artifact>, fault: Option<Fault>)
      requires Valid()
      ensures fault.None? <==> Capturable(base, tree, writePaths, maxOutputBytes, git)
      ensures fault.None? ==> Captures(p, a) && Inspectable(tree, maxOutputBytes, maxOutputBytes)
      ensures fault.None? && a.Some? ==> git.GitWorks? && a.value.size == git.rawSize
      ensures fault.Some? ==> p.None? && a.None?
      // why there is no patch, once every change is permitted: too many, or version control
      ensures Inspectable(tree, maxOutputBytes, maxOutputBytes) && AllPermitted(Listed(base), Listed(Contents(tree)), writePaths) ==>
                var n := |ChangedNames(Listed(base), Listed(Contents(tree)))|;
                && (n > 100 ==> fault == Some(Exceeded(false)))
                && (fault.Some? && n <= 100 ==> fault == Some(match git
                                                              case GitExpires => Exceeded(true)
                                                              case GitFails => Misconfigured
                                                              case GitWorks(_) => Exceeded(false)))
    {
      hide Inspectable, ContractPath, Permitted, IsChangeList, RelativePath, AllPermitted, PatchOf, Plain, ChangedNames;
      p, a, fault := None, None, None;
      var current := InspectTree(tree, maxOutputBytes, maxOutputBytes);
      if current.Err? {
        return None, None, Some(current.error);
      }
      var changed, outside := ListChanges(current.value);
      if outside.Some? {
        return None, None, outside;
      }
      ChangeListMatchesPatch(changed, base, Contents(tree));
      ListLength(changed, original, current.value);
      if changed == [] {
        return;
      }
      if |changed| > 100 {
        return None, None, Some(Exceeded(false));
      }
      match git
      case GitExpires => fault := Some(Exceeded(true));
      case GitFails => fault := Some(Misconfigured);
      case GitWorks(rawSize) =>
        if rawSize > maxOutputBytes {
          return None, None, Some(Exceeded(false));
        }
        var digest := OfDiff(PatchOf(base, Contents(tree)));
        PatchArtifactValid(digest, rawSize);
        p := Some(Patch(digest, "changes", changed));
        a := Some(Artifact("changes", APatch, "changes.patch", digest, rawSize));
    }

    /** Replace the tree: the editor, or an execution inside the container, wrote files. */
    method Rewrite(t: Tree)
      modifies this`tree
      ensures tree == t
    {
      tree := t;
    }
  }
}
