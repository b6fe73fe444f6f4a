/**
  The order in which the driver puts opened files together (src/bin/main.ml). Opens gives, for a
  file name, the names its open declarations lead to, with the directory of the opening file in
  front of them; rank witnesses that the files which the root leads to do not open each other in
  a circle.
 */
module OpenOrder {
  type Name = string

  /** Every name of the path is opened by the one before. */
  ghost predicate OpenPath(opens: Name -> seq<Name>, path: seq<Name>)
  {
    forall i :: 0 <= i < |path| - 1 ==> path[i + 1] in opens(path[i])
  }

  ghost predicate Reachable(opens: Name -> seq<Name>, root: Name, n: Name)
  {
    exists path :: path != [] && path[0] == root && path[|path| - 1] == n && OpenPath(opens, path)
  }

  ghost predicate Acyclic(opens: Name -> seq<Name>, root: Name, rank: Name -> nat)
  {
    forall n, o :: Reachable(opens, root, n) && o in opens(n) ==> rank(o) < rank(n)
  }

  lemma RootReachable(opens: Name -> seq<Name>, root: Name)
    ensures Reachable(opens, root, root)
  {
    assert OpenPath(opens, [root]);
  }

  lemma OpenedReachable(opens: Name -> seq<Name>, root: Name, n: Name)
    requires Reachable(opens, root, n)
    ensures forall o :: o in opens(n) ==> Reachable(opens, root, o)
  {
    var path :| path != [] && path[0] == root && path[|path| - 1] == n && OpenPath(opens, path);
    forall o | o in opens(n)
      ensures Reachable(opens, root, o)
    {
      assert OpenPath(opens, path + [o]);
    }
  }

  /** List.concat_map of get_open_filenames. */
  function OpenedBy(opens: Name -> seq<Name>, names: seq<Name>, ghost root: Name, ghost rank: Name -> nat,
                    ghost bound: nat): seq<Name>
    requires Acyclic(opens, root, rank) && forall n :: n in names ==> Reachable(opens, root, n) && rank(n) < bound
    decreases bound, |names|
  {
    if names == [] then []
    else GetOpenFilenames(opens, names[0], root, rank) + OpenedBy(opens, names[1..], root, rank, bound)
  }

  function GetOpenFilenames(opens: Name -> seq<Name>, name: Name, ghost root: Name, ghost rank: Name -> nat): seq<Name>
    requires Acyclic(opens, root, rank) && Reachable(opens, root, name)
    decreases rank(name) + 1, 0
  {
    OpenedReachable(opens, root, name);
    OpenedBy(opens, opens(name), root, rank, rank(name)) + [name]
  }

  function Dedup(l: seq<Name>, acc: seq<Name>): seq<Name>
  {
    if l == [] then []
    else if l[0] in acc then Dedup(l[1..], acc)
    else [l[0]] + Dedup(l[1..], [l[0]] + acc)
  }

  /** Each name comes after all names that it opens. */
  ghost predicate Ordered(opens: Name -> seq<Name>, l: seq<Name>)
  {
    forall i, o :: 0 <= i < |l| && o in opens(l[i]) ==> o in l[..i]
  }

  predicate NoDup(l: seq<Name>)
  {
    forall i, j :: 0 <= i < j < |l| ==> l[i] != l[j]
  }

  // ----- what is listed -----

  lemma {:induction false} OpenedByMembers(opens: Name -> seq<Name>, names: seq<Name>, root: Name, rank: Name -> nat,
                                           bound: nat, n: Name)
    requires Acyclic(opens, root, rank) && forall m :: m in names ==> Reachable(opens, root, m) && rank(m) < bound
    ensures n in OpenedBy(opens, names, root, rank, bound) <==>
            exists m :: m in names && Reachable(opens, root, m) && n in GetOpenFilenames(opens, m, root, rank)
    decreases |names|
  {
    hide Acyclic, Reachable;
    if names != [] {
      OpenedByMembers(opens, names[1..], root, rank, bound, n);
      assert forall m :: m in names <==> m == names[0] || m in names[1..];
    }
  }

  /** A listed name is led to by the name whose list it is in, and ranks no higher. */
  lemma {:induction false} ListedIsReachable(opens: Name -> seq<Name>, name: Name, root: Name, rank: Name -> nat,
                                             n: Name)
    requires Acyclic(opens, root, rank) && Reachable(opens, root, name)
    requires n in GetOpenFilenames(opens, name, root, rank)
    ensures Reachable(opens, name, n) && (n == name || rank(n) < rank(name))
    decreases rank(name)
  {
    if n == name {
      RootReachable(opens, name);
    } else {
      OpenedReachable(opens, root, name);
      OpenedByMembers(opens, opens(name), root, rank, rank(name), n);
      var m :| m in opens(name) && Reachable(opens, root, m) && n in GetOpenFilenames(opens, m, root, rank);
      ListedIsReachable(opens, m, root, rank, n);
      ReachableFrom(opens, name, m, n);
    }
  }

  lemma ReachableFrom(opens: Name -> seq<Name>, name: Name, m: Name, n: Name)
    requires m in opens(name) && Reachable(opens, m, n)
    ensures Reachable(opens, name, n)
  {
    var path :| path != [] && path[0] == m && path[|path| - 1] == n && OpenPath(opens, path);
    var longer := [name] + path;
    assert forall i :: 0 < i < |longer| ==> longer[i] == path[i - 1];
    assert OpenPath(opens, longer);
  }

  lemma {:induction false} PathIsListed(opens: Name -> seq<Name>, path: seq<Name>, root: Name, rank: Name -> nat)
    requires path != [] && OpenPath(opens, path) && Acyclic(opens, root, rank) && Reachable(opens, root, path[0])
    ensures path[|path| - 1] in GetOpenFilenames(opens, path[0], root, rank)
    decreases |path|
  {
    if |path| > 1 {
      var rest := path[1..];
      assert path[0 + 1] in opens(path[0]);
      OpenedReachable(opens, root, path[0]);
      assert forall i :: 0 <= i < |rest| ==> rest[i] == path[i + 1];
      assert OpenPath(opens, rest);
      PathIsListed(opens, rest, root, rank);
      OpenedByMembers(opens, opens(path[0]), root, rank, rank(path[0]), path[|path| - 1]);
    }
  }

  // ----- in which order -----

  lemma OrderedJoin(opens: Name -> seq<Name>, a: seq<Name>, b: seq<Name>)
    requires Ordered(opens, a) && Ordered(opens, b)
    ensures Ordered(opens, a + b)
  {
    forall i, o | 0 <= i < |a + b| && o in opens((a + b)[i])
      ensures o in (a + b)[..i]
    {
      if i < |a| {
        assert o in a[..i] && (a + b)[..i] == a[..i];
      } else {
        assert o in b[..i - |a|] && (a + b)[..i] == a + b[..i - |a|];
      }
    }
  }

  lemma {:induction false} OpenedByOrdered(opens: Name -> seq<Name>, names: seq<Name>, root: Name, rank: Name -> nat,
                                           bound: nat)
    requires Acyclic(opens, root, rank) && forall n :: n in names ==> Reachable(opens, root, n) && rank(n) < bound
    ensures Ordered(opens, OpenedBy(opens, names, root, rank, bound))
    ensures forall n :: n in names ==> n in OpenedBy(opens, names, root, rank, bound)
    decreases bound, |names|
  {
    if names != [] {
      ListOrdered(opens, names[0], root, rank);
      OpenedByOrdered(opens, names[1..], root, rank, bound);
      OrderedJoin(opens, GetOpenFilenames(opens, names[0], root, rank), OpenedBy(opens, names[1..], root, rank, bound));
    }
  }

  lemma {:induction false} ListOrdered(opens: Name -> seq<Name>, name: Name, root: Name, rank: Name -> nat)
    requires Acyclic(opens, root, rank) && Reachable(opens, root, name)
    ensures Ordered(opens, GetOpenFilenames(opens, name, root, rank))
    decreases rank(name) + 1, 0
  {
    OpenedReachable(opens, root, name);
    var below := OpenedBy(opens, opens(name), root, rank, rank(name));
    OpenedByOrdered(opens, opens(name), root, rank, rank(name));
    forall i, o | 0 <= i < |below + [name]| && o in opens((below + [name])[i])
      ensures o in (below + [name])[..i]
    {
      assert (below + [name])[..i] == below[..i];
      assert i == |below| ==> below[..i] == below;
    }
  }

  lemma {:induction false} DedupMembers(l: seq<Name>, acc: seq<Name>, n: Name)
    ensures n in Dedup(l, acc) <==> n in l && n !in acc
    decreases |l|
  {
    if l != [] {
      DedupMembers(l[1..], if l[0] in acc then acc else [l[0]] + acc, n);
      assert n in l <==> n == l[0] || n in l[1..];
    }
  }

  lemma {:induction false} DedupNoDup(l: seq<Name>, acc: seq<Name>)
    ensures NoDup(Dedup(l, acc))
    decreases |l|
  {
    if l != [] {
      if l[0] in acc {
        DedupNoDup(l[1..], acc);
      } else {
        var rest := Dedup(l[1..], [l[0]] + acc);
        DedupNoDup(l[1..], [l[0]] + acc);
        DedupMembers(l[1..], [l[0]] + acc, l[0]);
        assert forall i :: 0 < i < |[l[0]] + rest| ==> ([l[0]] + rest)[i] == rest[i - 1];
        assert forall i :: 0 <= i < |rest| ==> rest[i] != l[0];
      }
    }
  }

  /** Ordered, when the names in acc come before. */
  ghost predicate OrderedAfter(opens: Name -> seq<Name>, acc: seq<Name>, l: seq<Name>)
  {
    forall i, o :: 0 <= i < |l| && o in opens(l[i]) ==> o in acc || o in l[..i]
  }

  lemma OrderedTail(opens: Name -> seq<Name>, acc: seq<Name>, l: seq<Name>, acc': seq<Name>)
    requires l != [] && OrderedAfter(opens, acc, l) && l[0] in acc' && forall n :: n in acc ==> n in acc'
    ensures OrderedAfter(opens, acc', l[1..])
  {
    forall i, o | 0 <= i < |l[1..]| && o in opens(l[1..][i])
      ensures o in acc' || o in l[1..][..i]
    {
      assert l[..i + 1] == [l[0]] + l[1..][..i];
    }
  }

  lemma {:induction false} DedupOrdered(opens: Name -> seq<Name>, l: seq<Name>, acc: seq<Name>)
    requires OrderedAfter(opens, acc, l)
    ensures OrderedAfter(opens, acc, Dedup(l, acc))
    decreases |l|
  {
    if l != [] {
      if l[0] in acc {
        OrderedTail(opens, acc, l, acc);
        DedupOrdered(opens, l[1..], acc);
      } else {
        var acc' := [l[0]] + acc;
        OrderedTail(opens, acc, l, acc');
        DedupOrdered(opens, l[1..], acc');
        var rest := Dedup(l[1..], acc');
        var d := [l[0]] + rest;
        forall i, o | 0 <= i < |d| && o in opens(d[i])
          ensures o in acc || o in d[..i]
        {
          if i == 0 {
            assert d[0] == l[0] && l[..0] == [];
            assert o in l[..0] || o in acc;
          } else {
            assert d[i] == rest[i - 1] && d[..i] == [l[0]] + rest[..i - 1];
            assert o in rest[..i - 1] || o in acc';
          }
        }
      }
    }
  }

  lemma OrderedFromStart(opens: Name -> seq<Name>, l: seq<Name>)
    requires OrderedAfter(opens, [], l)
    ensures Ordered(opens, l)
  {
    forall i, o | 0 <= i < |l| && o in opens(l[i])
      ensures o in l[..i]
    {
      assert o in l[..i] || o in [];
    }
  }

  lemma {:induction false} DedupLast(l: seq<Name>, acc: seq<Name>, x: Name)
    requires x !in l && x !in acc
    ensures Dedup(l + [x], acc) == Dedup(l, acc) + [x]
    decreases |l|
  {
    if l == [] {
      assert [x][1..] == [];
      assert [] + [x] == [x];
    } else {
      assert (l + [x])[1..] == l[1..] + [x];
      DedupLast(l[1..], if l[0] in acc then acc else [l[0]] + acc, x);
    }
  }

  /** dedup of get_open_filenames. */
  function OpenFilenames(opens: Name -> seq<Name>, root: Name, ghost rank: Name -> nat): seq<Name>
    requires Acyclic(opens, root, rank)
  {
    RootReachable(opens, root);
    Dedup(GetOpenFilenames(opens, root, root, rank), [])
  }

  /** What the driver concatenates: every reachable name, once, after all that it opens, and the
      root last. */
  lemma OpenOrderRight(opens: Name -> seq<Name>, root: Name, rank: Name -> nat)
    requires Acyclic(opens, root, rank)
    ensures var l := OpenFilenames(opens, root, rank);
            && NoDup(l) && Ordered(opens, l) && l != [] && l[|l| - 1] == root
            && forall n :: n in l <==> Reachable(opens, root, n)
  {
    RootReachable(opens, root);
    OpenedReachable(opens, root, root);
    var all := GetOpenFilenames(opens, root, root, rank);
    var below := OpenedBy(opens, opens(root), root, rank, rank(root));
    var l := OpenFilenames(opens, root, rank);
    DedupNoDup(all, []);
    ListOrdered(opens, root, root, rank);
    assert OrderedAfter(opens, [], all);
    DedupOrdered(opens, all, []);
    OrderedFromStart(opens, l);
    forall n
      ensures n in l <==> Reachable(opens, root, n)
    {
      DedupMembers(all, [], n);
      if n in all {
        ListedIsReachable(opens, root, root, rank, n);
      }
      if Reachable(opens, root, n) {
        var path :| path != [] && path[0] == root && path[|path| - 1] == n && OpenPath(opens, path);
        PathIsListed(opens, path, root, rank);
      }
    }
    if root in below {
      OpenedByMembers(opens, opens(root), root, rank, rank(root), root);
      var m :| m in opens(root) && Reachable(opens, root, m) && root in GetOpenFilenames(opens, m, root, rank);
      ListedIsReachable(opens, m, root, rank, root);
    }
    DedupLast(below, [], root);
  }

  /** Names are compared, not files: each reachable file is concatenated once if and only if no two
      reachable names lead to the same file. */
  lemma EachFileOnce<File>(opens: Name -> seq<Name>, root: Name, rank: Name -> nat, file: Name -> File)
    requires Acyclic(opens, root, rank)
    ensures var l := OpenFilenames(opens, root, rank);
            (forall i, j :: 0 <= i < j < |l| ==> file(l[i]) != file(l[j])) <==>
            (forall m, n :: Reachable(opens, root, m) && Reachable(opens, root, n) && file(m) == file(n) ==> m == n)
  {
    OpenOrderRight(opens, root, rank);
    var l := OpenFilenames(opens, root, rank);
    hide Reachable, OpenFilenames, Ordered;
    if forall i, j :: 0 <= i < j < |l| ==> file(l[i]) != file(l[j]) {
      forall m, n | Reachable(opens, root, m) && Reachable(opens, root, n) && file(m) == file(n)
        ensures m == n
      {
        assert m in l && n in l;
        var i :| 0 <= i < |l| && l[i] == m;
        var j :| 0 <= j < |l| && l[j] == n;
      }
    }
    if forall m, n :: Reachable(opens, root, m) && Reachable(opens, root, n) && file(m) == file(n) ==> m == n {
      forall i, j | 0 <= i < j < |l|
        ensures file(l[i]) != file(l[j])
      {
        assert l[i] in l && l[j] in l;
      }
    }
  }

  // ----- names and files -----

  /** Filename.dirname, for names that do not end in a slash. */
  function DirName(name: Name): Name
  {
    if '/' !in name then "."
    else if name[|name| - 1] == '/' then name[..|name| - 1]
    else DirName(name[..|name| - 1])
  }

  function Under(name: Name, xs: seq<Name>): seq<Name>
  {
    if xs == [] then [] else [DirName(name) + "/" + xs[0]] + Under(name, xs[1..])
  }

  /** The parts of a path between its slashes. */
  function Split(name: Name): (parts: seq<string>)
    ensures parts != []
  {
    if name == "" then [""]
    else if name[0] == '/' then [""] + Split(name[1..])
    else var rest := Split(name[1..]); [[name[0]] + rest[0]] + rest[1..]
  }

  function Glue(parts: seq<string>): Name
    requires parts != []
  {
    if |parts| == 1 then parts[0] else parts[0] + "/" + Glue(parts[1..])
  }

  lemma {:induction false} GlueSplit(name: Name)
    ensures Glue(Split(name)) == name
  {
    if name != "" {
      GlueSplit(name[1..]);
      var rest := Split(name[1..]);
      if name[0] == '/' {
        assert ([""] + rest)[1..] == rest;
        assert "" + "/" + name[1..] == name;
      } else {
        var first := [name[0]] + rest[0];
        assert ([first] + rest[1..])[1..] == rest[1..];
        assert [name[0]] + name[1..] == name;
      }
    }
  }

  lemma SplitHead(name: Name)
    requires name != ""
    ensures Split(name) == if name[0] == '/' then [""] + Split(name[1..])
            else [[name[0]] + Split(name[1..])[0]] + Split(name[1..])[1..]
  {
  }

  lemma {:induction false} SplitUnder(dir: Name, x: Name)
    ensures Split(dir + "/" + x) == Split(dir) + Split(x)
  {
    var name := dir + "/" + x;
    SplitHead(name);
    if dir == "" {
      assert name[1..] == x;
    } else {
      SplitHead(dir);
      SplitUnder(dir[1..], x);
      assert name[1..] == dir[1..] + "/" + x && name[0] == dir[0];
      JoinHead([name[0]], Split(dir[1..]), Split(x));
      hide Split;
    }
  }

  lemma JoinHead(first: string, a: seq<string>, b: seq<string>)
    requires a != []
    ensures [""] + (a + b) == ([""] + a) + b
    ensures [first + (a + b)[0]] + (a + b)[1..] == ([first + a[0]] + a[1..]) + b
  {
    assert (a + b)[1..] == a[1..] + b;
  }

  lemma {:induction false} NoSlashSplit(name: Name)
    requires '/' !in name
    ensures Split(name) == [name]
  {
    if name != "" {
      NoSlashSplit(name[1..]);
      assert [name[0]] + name[1..] == name;
    }
  }

  /** A name is its directory and its last part. */
  lemma {:induction false} DirNameParts(name: Name)
    requires '/' in name
    ensures Split(name) == Split(DirName(name)) + [Split(name)[|Split(name)| - 1]]
    ensures exists last :: '/' !in last && name == DirName(name) + "/" + last
  {
    var last := LastPart(name);
    SplitUnder(DirName(name), last);
    NoSlashSplit(last);
  }

  lemma {:induction false} LastPart(name: Name) returns (last: string)
    requires '/' in name
    ensures '/' !in last && name == DirName(name) + "/" + last
  {
    var front := name[..|name| - 1];
    assert name == front + [name[|name| - 1]];
    if name[|name| - 1] == '/' {
      last := "";
    } else {
      var shorter := LastPart(front);
      last := shorter + [name[|name| - 1]];
    }
  }

  /** The path of the file that a name leads to, without links: empty parts and "." stand for nothing,
      ".." takes back the part before. */
  function Simplify(parts: seq<string>): seq<string>
  {
    if parts == [] then [] else
    var before, last := Simplify(parts[..|parts| - 1]), parts[|parts| - 1];
    if last == "." || (last == "" && |parts| > 1) then before
    else if last == ".." && before != [] && before[|before| - 1] != ".." && before[|before| - 1] != ""
        then before[..|before| - 1]
    else before + [last]
  }

  function File(name: Name): seq<string>
  {
    Simplify(Split(name))
  }

  predicate PlainParts(parts: seq<string>)
  {
    forall i :: 0 <= i < |parts| ==> parts[i] != "" && parts[i] != "." && parts[i] != ".."
  }

  lemma {:induction false} SimplifyPlain(parts: seq<string>, plain: seq<string>)
    requires PlainParts(plain)
    ensures Simplify(parts + plain) == Simplify(parts) + plain
    decreases |plain|
  {
    if plain == [] {
      assert parts + plain == parts;
    } else {
      var front := plain[..|plain| - 1];
      SimplifyPlain(parts, front);
      assert (parts + plain)[..|parts + plain| - 1] == parts + front;
      assert front + [plain[|plain| - 1]] == plain;
    }
  }

  /** The open declarations of every file name a path downwards, without "." and "..". */
  ghost predicate Downwards(decls: Name -> seq<Name>)
  {
    forall n, x :: x in decls(n) ==> PlainParts(Split(x))
  }

  /** Names lie under the directory dir, by a plain path. */
  ghost predicate LiesUnder(dir: seq<string>, n: Name)
  {
    '/' in n && exists plain :: plain != [] && PlainParts(plain) && Split(n) == dir + plain
  }

  lemma {:induction false} UnderMember(name: Name, xs: seq<Name>, n: Name)
    requires n in Under(name, xs)
    ensures exists x :: x in xs && n == DirName(name) + "/" + x
  {
    if n == DirName(name) + "/" + xs[0] {
      assert xs[0] in xs;
    } else {
      UnderMember(name, xs[1..], n);
      var x :| x in xs[1..] && n == DirName(name) + "/" + x;
      assert x in xs;
    }
  }

  lemma NoSlashDir(name: Name)
    requires '/' !in name
    ensures DirName(name) == "." && Split(".") == ["."]
  {
    NoSlashSplit(".");
  }

  /** A plain path that is opened from a file under dir. */
  lemma PlainUnder(dir: seq<string>, name: Name, x: Name, n: Name)
    requires n == DirName(name) + "/" + x && PlainParts(Split(x))
    requires LiesUnder(dir, name) || ('/' !in name && dir == ["."])
    ensures LiesUnder(dir, n)
  {
    hide Split, DirName;
    SplitUnder(DirName(name), x);
    assert n[|DirName(name)|] == '/';
    if '/' in name {
      var plain :| plain != [] && PlainParts(plain) && Split(name) == dir + plain;
      DirNameParts(name);
      assert Split(DirName(name)) == Split(name)[..|Split(name)| - 1] == dir + plain[..|plain| - 1];
      assert Split(n) == dir + (plain[..|plain| - 1] + Split(x));
    } else {
      NoSlashDir(name);
    }
  }

  lemma OpenedLiesUnder(dir: seq<string>, decls: Name -> seq<Name>, name: Name, n: Name)
    requires Downwards(decls) && n in Under(name, decls(name))
    requires LiesUnder(dir, name) || ('/' !in name && dir == ["."])
    ensures LiesUnder(dir, n)
  {
    hide LiesUnder, Under, DirName, Split, PlainParts;
    UnderMember(name, decls(name), n);
    var x :| x in decls(name) && n == DirName(name) + "/" + x;
    PlainUnder(dir, name, x, n);
  }

  lemma {:induction false} ReachedLiesUnder(dir: seq<string>, opens: Name -> seq<Name>, decls: Name -> seq<Name>,
                                            path: seq<Name>)
    requires Downwards(decls) && (forall n :: opens(n) == Under(n, decls(n))) && OpenPath(opens, path) && |path| > 1
    requires LiesUnder(dir, path[0]) || ('/' !in path[0] && dir == ["."])
    ensures LiesUnder(dir, path[|path| - 1])
    decreases |path|
  {
    hide LiesUnder, Downwards;
    var front := path[..|path| - 1];
    assert OpenPath(opens, front) && path[|path| - 2 + 1] in opens(path[|path| - 2]);
    if |front| > 1 {
      ReachedLiesUnder(dir, opens, decls, front);
    }
    OpenedLiesUnder(dir, decls, path[|path| - 2], path[|path| - 1]);
  }

  lemma OneNameEach(dir: seq<string>, m: Name, n: Name)
    requires LiesUnder(dir, m) && LiesUnder(dir, n) && File(m) == File(n)
    ensures m == n
  {
    var p :| p != [] && PlainParts(p) && Split(m) == dir + p;
    var q :| q != [] && PlainParts(q) && Split(n) == dir + q;
    SimplifyPlain(dir, p);
    SimplifyPlain(dir, q);
    assert p == q by {
      assert (Simplify(dir) + p)[|Simplify(dir)|..] == p && (Simplify(dir) + q)[|Simplify(dir)|..] == q;
    }
    GlueSplit(m);
    GlueSplit(n);
  }

  /** When open declarations only lead downwards, and no file opens the root, every file is
      concatenated once. */
  lemma DownwardsOnce(opens: Name -> seq<Name>, decls: Name -> seq<Name>, root: Name, rank: Name -> nat)
    requires Acyclic(opens, root, rank) && Downwards(decls) && forall n :: opens(n) == Under(n, decls(n))
    requires if '/' in root then PlainParts([Split(root)[|Split(root)| - 1]]) else !exists n ::
               Reachable(opens, root, n) && n != root && File(n) == File(root)
    ensures var l := OpenFilenames(opens, root, rank);
            forall i, j :: 0 <= i < j < |l| ==> File(l[i]) != File(l[j])
  {
    var dir := if '/' in root then Split(root)[..|Split(root)| - 1] else ["."];
    if '/' in root {
      RootLiesUnder(root);
    }
    forall m, n | Reachable(opens, root, m) && Reachable(opens, root, n) && File(m) == File(n)
      ensures m == n
    {
      ReachedOrRoot(dir, opens, decls, root, m);
      ReachedOrRoot(dir, opens, decls, root, n);
      if LiesUnder(dir, m) && LiesUnder(dir, n) {
        OneNameEach(dir, m, n);
      }
    }
    hide Acyclic, Reachable, File, LiesUnder, OpenFilenames;
    EachFileOnce(opens, root, rank, File);
  }

  lemma RootLiesUnder(root: Name)
    requires '/' in root && PlainParts([Split(root)[|Split(root)| - 1]])
    ensures LiesUnder(Split(root)[..|Split(root)| - 1], root)
  {
    var parts := Split(root);
    assert parts == parts[..|parts| - 1] + [parts[|parts| - 1]];
  }

  lemma ReachedOrRoot(dir: seq<string>, opens: Name -> seq<Name>, decls: Name -> seq<Name>, root: Name, n: Name)
    requires Downwards(decls) && (forall n :: opens(n) == Under(n, decls(n))) && Reachable(opens, root, n)
    requires LiesUnder(dir, root) || ('/' !in root && dir == ["."])
    ensures n == root || LiesUnder(dir, n)
  {
    hide LiesUnder, Downwards;
    var path :| path != [] && path[0] == root && path[|path| - 1] == n && OpenPath(opens, path);
    if |path| > 1 {
      ReachedLiesUnder(dir, opens, decls, path);
    }
  }

  // ----- one file under two names -----

  /** m opens b and a, and a opens c. */
  ghost predicate Opening(opens: Name -> seq<Name>, rank: Name -> nat, m: Name, a: Name, b: Name, c: Name)
  {
    && opens(m) == [b, a] && opens(a) == [c] && opens(b) == [] && opens(c) == [] && b != a && b != c && a != c && m != a
        && m != b && m != c
    && Acyclic(opens, m, rank)
  }

  lemma OpeningReach(opens: Name -> seq<Name>, rank: Name -> nat, m: Name, a: Name, b: Name, c: Name)
    requires Opening(opens, rank, m, a, b, c)
    ensures Reachable(opens, m, m) && Reachable(opens, m, a) && Reachable(opens, m, b) && Reachable(opens, m, c)
    ensures rank(c) < rank(a) < rank(m) && rank(b) < rank(m)
  {
    RootReachable(opens, m);
    OpenedReachable(opens, m, m);
    OpenedReachable(opens, m, a);
    hide Reachable;
  }

  lemma ListOfLeaf(opens: Name -> seq<Name>, root: Name, rank: Name -> nat, n: Name)
    requires Acyclic(opens, root, rank) && Reachable(opens, root, n) && opens(n) == []
    ensures GetOpenFilenames(opens, n, root, rank) == [n]
  {
    hide Acyclic, Reachable;
    assert [] + [n] == [n];
  }

  lemma OpeningLists(opens: Name -> seq<Name>, rank: Name -> nat, m: Name, a: Name, b: Name, c: Name)
    requires Opening(opens, rank, m, a, b, c) && Reachable(opens, m, m) && Reachable(opens, m, a)
    requires Reachable(opens, m, b) && Reachable(opens, m, c)
    requires rank(c) < rank(a) < rank(m) && rank(b) < rank(m)
    ensures GetOpenFilenames(opens, m, m, rank) == [b, c, a, m]
  {
    hide Acyclic, Reachable;
    ListOfLeaf(opens, m, rank, b);
    ListOfLeaf(opens, m, rank, c);
    assert [c][1..] == [] && [b, a][1..] == [a] && [a][1..] == [];
    assert OpenedBy(opens, [], m, rank, rank(a)) == [] && OpenedBy(opens, [], m, rank, rank(m)) == [];
    assert OpenedBy(opens, [c], m, rank, rank(a)) == [c];
    assert GetOpenFilenames(opens, a, m, rank) == [c, a];
    assert OpenedBy(opens, [a], m, rank, rank(m)) == [c, a];
    assert OpenedBy(opens, [b, a], m, rank, rank(m)) == [b, c, a];
  }

  lemma OpeningDedup(m: Name, a: Name, b: Name, c: Name)
    requires b != a && b != c && a != c && m != a && m != b && m != c
    ensures Dedup([b, c, a, m], []) == [b, c, a, m]
  {
    assert [m][1..] == [] && [a, m][1..] == [m] && [c, a, m][1..] == [a, m] && [b, c, a, m][1..] == [c, a, m];
    assert Dedup([m], [a] + ([c] + ([b] + []))) == [m];
    assert Dedup([a, m], [c] + ([b] + [])) == [a, m];
    assert Dedup([c, a, m], [b] + []) == [c, a, m];
  }

  const M: Name := "./m"
  const A: Name := "./d/a"
  const B: Name := "./d/b"
  const B_AGAIN: Name := "./d/../d/b"

  /** m opens d/b and d/a, and d/a opens ../d/b. */
  function Example(name: Name): seq<Name>
  {
    if name == M then Under(M, ["d/b", "d/a"]) else if name == A then Under(A, ["../d/b"]) else []
  }

  function ExampleRank(name: Name): nat
  {
    if name == M then 2 else if name == A then 1 else 0
  }

  lemma ExampleOpens()
    ensures Example(M) == [B, A] && Example(A) == [B_AGAIN] && Example(B) == [] && Example(B_AGAIN) == []
  {
    assert DirName("./m") == "." by {
      assert "./m"[..2] == "./" && "./"[..1] == ".";
    }
    assert DirName("./d/a") == "./d" by {
      assert "./d/a"[..4] == "./d/" && "./d/"[..3] == "./d";
    }
    assert ["d/b", "d/a"][1..] == ["d/a"] && ["d/a"][1..] == [] && ["../d/b"][1..] == [];
    assert "." + "/" + "d/b" == B && "." + "/" + "d/a" == A && "./d" + "/" + "../d/b" == B_AGAIN;
    assert M != A && B != M && B != A && B_AGAIN != M && B_AGAIN != A;
  }

  lemma ExampleNames()
    ensures B != A && B != B_AGAIN && A != B_AGAIN && M != A && M != B && M != B_AGAIN
  {
    assert |B_AGAIN| == 10 && |B| == 5 && |A| == 5 && |M| == 3 && B[4] != A[4];
  }

  lemma ExampleRanks()
    ensures ExampleRank(M) == 2 && ExampleRank(A) == 1 && ExampleRank(B) == 0 && ExampleRank(B_AGAIN) == 0
    ensures forall n :: n != M && n != A ==> Example(n) == []
  {
    ExampleNames();
  }

  lemma ExampleOpening()
    ensures Opening(Example, ExampleRank, M, A, B, B_AGAIN)
  {
    ExampleOpens();
    ExampleNames();
    ExampleRanks();
    hide Reachable, Under, DirName, Example, ExampleRank;
  }

  lemma Spellings()
    ensures B == "." + "/" + "d/b" && "d/b" == "d" + "/" + "b" && "./d" == "." + "/" + "d"
    ensures "../d/b" == ".." + "/" + "d/b" && B_AGAIN == "./d" + "/" + "../d/b"
  {
  }

  lemma PartsOf()
    ensures Split(B) == [".", "d", "b"] && Split(B_AGAIN) == [".", "d", "..", "d", "b"]
  {
    hide Split;
    Spellings();
    NoSlashSplit(".");
    NoSlashSplit("d");
    NoSlashSplit("b");
    NoSlashSplit("..");
    SplitUnder("d", "b");
    SplitUnder(".", "d/b");
    SplitUnder(".", "d");
    SplitUnder("..", "d/b");
    SplitUnder("./d", "../d/b");
  }

  lemma OneFile()
    ensures File(B) == File(B_AGAIN) == ["d", "b"]
  {
    hide Split, Simplify;
    PartsOf();
    DropsDots();
  }

  lemma DotAlone()
    ensures Simplify(["."]) == []
  {
    assert ["."][..0] == [] && Simplify([]) == [];
  }

  lemma Backwards(parts: seq<string>, before: string)
    requires Simplify(parts) == [before] && before != ".." && before != ""
    ensures Simplify(parts + [".."]) == []
  {
    assert (parts + [".."])[..|parts|] == parts;
  }

  lemma DropsDots()
    ensures Simplify([".", "d", "b"]) == ["d", "b"] && Simplify([".", "d", "..", "d", "b"]) == ["d", "b"]
  {
    hide Simplify;
    DotAlone();
    SimplifyPlain(["."], ["d", "b"]);
    SimplifyPlain(["."], ["d"]);
    assert ["."] + ["d", "b"] == [".", "d", "b"] && [] + ["d", "b"] == ["d", "b"] && [] + ["d"] == ["d"];
    Backwards(["."] + ["d"], "d");
    SimplifyPlain(["."] + ["d"] + [".."], ["d", "b"]);
    assert ["."] + ["d"] + [".."] + ["d", "b"] == [".", "d", "..", "d", "b"];
  }

  /** The file d/b is concatenated twice, under two names. */
  lemma FileTwice()
    ensures Acyclic(Example, M, ExampleRank) && OpenFilenames(Example, M, ExampleRank) == [B, B_AGAIN, A, M]
    ensures B != B_AGAIN && File(B) == File(B_AGAIN)
  {
    OneFile();
    ExampleNames();
    ExampleOpening();
    FileTwiceIn(Example, ExampleRank, M, A, B, B_AGAIN);
  }

  lemma FileTwiceIn(opens: Name -> seq<Name>, rank: Name -> nat, m: Name, a: Name, b: Name, c: Name)
    requires Opening(opens, rank, m, a, b, c)
    ensures Acyclic(opens, m, rank) && OpenFilenames(opens, m, rank) == [b, c, a, m]
  {
    OpeningReach(opens, rank, m, a, b, c);
    OpeningLists(opens, rank, m, a, b, c);
    OpeningDedup(m, a, b, c);
    hide Acyclic, Reachable, GetOpenFilenames, Dedup;
  }
}
