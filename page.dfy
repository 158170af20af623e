/** The entry-point lookup of the bootstrap script (page.js:204-206): the
    page name "Path.To.Page" is split at "." and folded from the left over the
    App's module tree, one property read per segment, and the `EntryPoint`
    member of the module reached is the one started. */
module Page {
  import opened Wrappers

  /** `s.split(sep)` on a string: the maximal pieces between separators, empty
      pieces included, so that the result is never empty. */
  function Split(s: string, sep: char): (parts: seq<string>)
    ensures |parts| >= 1
    ensures forall i :: 0 <= i < |parts| ==> sep !in parts[i]
  {
    if |s| == 0 then [""]
    else
      var rest := Split(s[1..], sep);
      if s[0] == sep then [""] + rest
      else [[s[0]] + rest[0]] + rest[1..]
  }

  /** `parts.join(sep)`. */
  function Join(parts: seq<string>, sep: char): string
    requires |parts| >= 1
    decreases |parts|
  {
    if |parts| == 1 then parts[0] else parts[0] + [sep] + Join(parts[1..], sep)
  }

  /** Joining the pieces of a split gives the string back. */
  lemma {:induction false} JoinSplit(s: string, sep: char)
    ensures Join(Split(s, sep), sep) == s
    decreases |s|
  {
    if |s| > 0 {
      var rest := Split(s[1..], sep);
      JoinSplit(s[1..], sep);
      if s[0] != sep {
        if |rest| == 1 {
          assert Join(Split(s, sep), sep) == [s[0]] + rest[0];
        } else {
          assert Split(s, sep)[1..] == rest[1..];
          assert Join(rest, sep) == rest[0] + [sep] + Join(rest[1..], sep);
        }
      } else {
        assert Split(s, sep)[1..] == rest;
      }
      assert s == [s[0]] + s[1..];
    }
  }

  /** Splitting a join of pieces without separators gives the pieces back. */
  lemma {:induction false} SplitJoin(parts: seq<string>, sep: char)
    requires |parts| >= 1
    requires forall i :: 0 <= i < |parts| ==> sep !in parts[i]
    ensures Split(Join(parts, sep), sep) == parts
    decreases |parts|, |parts[0]|
  {
    var s := Join(parts, sep);
    if |parts[0]| == 0 {
      if |parts| > 1 {
        SplitJoin(parts[1..], sep);
        assert s == [sep] + Join(parts[1..], sep);
        assert s[1..] == Join(parts[1..], sep);
        assert parts == [""] + parts[1..];
      }
    } else {
      var parts' := [parts[0][1..]] + parts[1..];
      assert parts'[1..] == parts[1..];
      assert forall i :: 1 <= i < |parts'| ==> parts'[i] == parts[i];
      SplitJoin(parts', sep);
      assert s[1..] == Join(parts', sep);
      var rest := Split(s[1..], sep);
      assert s[0] == parts[0][0] != sep;
      assert Split(s, sep) == [[s[0]] + rest[0]] + rest[1..];
      assert [s[0]] + rest[0] == parts[0];
      assert rest[1..] == parts[1..];
    }
  }

  /** A module object of the App: its members by name. */
  datatype Namespace = Namespace(members: map<string, Namespace>)

  /** The accumulator of the fold: a module, `undefined` (a member that was not
      there), or a thrown TypeError (a member of `undefined` was read). */
  datatype Ref = Found(ns: Namespace) | Missing | Thrown

  /** `acc[m]`: a member of a module is found when the module has it and
      is `undefined` otherwise; reading a member of `undefined` throws, and a
      throw stays a throw. */
  function Member(acc: Ref, m: string): (r: Ref)
    ensures r.Found? <==> acc.Found? && m in acc.ns.members
    ensures r.Found? ==> r.ns == acc.ns.members[m]
    ensures r.Missing? <==> acc.Found? && m !in acc.ns.members
  {
    match acc
    case Found(ns) => if m in ns.members then Found(ns.members[m]) else Missing
    case Missing => Thrown
    case Thrown => Thrown
  }

  /** `segs.reduce(function(acc, m){ return acc[m]; }, acc)`. */
  function Reduce(acc: Ref, segs: seq<string>): (r: Ref)
    ensures acc.Thrown? ==> r.Thrown?
    ensures acc.Missing? ==> !r.Found? && (r.Missing? <==> |segs| == 0)
    decreases |segs|
  {
    if |segs| == 0 then acc else Reduce(Member(acc, segs[0]), segs[1..])
  }

  /** The module at a path below `ns`, by nested lookup: the independent
      reference for the fold. */
  function At(ns: Namespace, path: seq<string>): Option<Namespace>
    decreases |path|
  {
    if |path| == 0 then Some(ns)
    else if path[0] in ns.members then At(ns.members[path[0]], path[1..])
    else None
  }

  /** The `EntryPoint` of the page named `page` below `root`; None is the
      TypeError that `.EntryPoint` or `.init` on `undefined` throws. */
  function EntryPoint(root: Namespace, page: string): (r: Option<Namespace>)
    ensures r == At(root, Split(page, '.') + ["EntryPoint"])
  {
    var segs := Split(page, '.');
    ReduceAppend(Found(root), segs, ["EntryPoint"]);
    ReduceIsAt(root, segs + ["EntryPoint"]);
    match Member(Reduce(Found(root), segs), "EntryPoint")
    case Found(ep) => Some(ep)
    case _ => None
  }

  /** Folding over a concatenation is folding over each part in turn. */
  lemma {:induction false} ReduceAppend(acc: Ref, a: seq<string>, b: seq<string>)
    ensures Reduce(acc, a + b) == Reduce(Reduce(acc, a), b)
    decreases |a|
  {
    if |a| > 0 {
      assert (a + b)[1..] == a[1..] + b;
      ReduceAppend(Member(acc, a[0]), a[1..], b);
    } else {
      assert a + b == b;
    }
  }

  /** The fold finds a module exactly when the nested lookup does, and the
      same one. */
  lemma {:induction false} ReduceIsAt(ns: Namespace, path: seq<string>)
    ensures Reduce(Found(ns), path).Found? <==> At(ns, path).Some?
    ensures At(ns, path).Some? ==> Reduce(Found(ns), path) == Found(At(ns, path).value)
    decreases |path|
  {
    if |path| > 0 {
      if path[0] in ns.members {
        ReduceIsAt(ns.members[path[0]], path[1..]);
      }
    }
  }
}
