/** The non-API part of the Node server: routing a pathname, turning it into a file path
    below the public directory, the containment guard, and the content type a file is
    sent with.

    Paths are modelled as sequences of segments. `path.normalize` and `path.resolve` are
    stood in for by a stack-based resolver over those segments (POSIX rules, `/` as the
    only separator). */
module ServerStatic {
  import opened Text
  import opened Js

  // ---------------------------------------------------------------- routing

  datatype Route = Healthz | Index | ApiHealth | Generate | StaticFile

  /** The order in which the request handler tries its routes. */
  function RouteOf(pathname: string, httpMethod: string): (r: Route)
    ensures r == Generate <==> pathname == "/api/generate" && httpMethod == "POST"
    ensures r == StaticFile <==>
              pathname != "/healthz" && pathname != "/" && pathname != "/api/health"
              && !(pathname == "/api/generate" && httpMethod == "POST")
    ensures r == Healthz <==> pathname == "/healthz"
    ensures r == Index <==> pathname == "/"
    ensures r == ApiHealth <==> pathname == "/api/health"
  {
    if pathname == "/healthz" then Healthz
    else if pathname == "/" then Index
    else if pathname == "/api/health" then ApiHealth
    else if pathname == "/api/generate" && httpMethod == "POST" then Generate
    else StaticFile
  }

  /** Unlike the serverless handler, the Node server has no 405: any other method on
      `/api/generate` is looked up as a static file. */
  lemma GetGenerateIsStatic()
    ensures RouteOf("/api/generate", "GET") == StaticFile
  {
  }

  // ---------------------------------------------------------------- path text

  /** `pathname.replace(/^\/+/, '')`: every leading slash removed, nothing else. */
  function StripLeadingSlashes(s: string): (r: string)
    ensures |r| <= |s| && s[|s| - |r|..] == r
    ensures forall i :: 0 <= i < |s| - |r| ==> s[i] == '/'
    ensures r == [] || r[0] != '/'
    decreases |s|
  {
    if s != [] && s[0] == '/' then StripLeadingSlashes(s[1..]) else s
  }

  /** The pieces of `s` between its `/` characters (a string with no `/` is one piece). */
  function Split(s: string): (r: seq<string>)
    ensures |r| >= 1
    ensures forall k :: 0 <= k < |r| ==> '/' !in r[k]
    decreases |s|
  {
    if s == [] then [""]
    else
      var rest := Split(s[1..]);
      if s[0] == '/' then [""] + rest else [[s[0]] + rest[0]] + rest[1..]
  }

  /** A segment that names a directory entry: not empty, not `.` or `..`, no separator. */
  predicate IsName(seg: string) {
    seg != "" && seg != "." && seg != ".." && '/' !in seg
  }

  predicate Canonical(segs: seq<string>) {
    forall k :: 0 <= k < |segs| ==> IsName(segs[k])
  }

  /** The shape of a normalised relative path: some `..` segments, then names. */
  predicate RelativeNormal(segs: seq<string>) {
    exists n :: 0 <= n <= |segs| && (forall k :: 0 <= k < n ==> segs[k] == "..") && Canonical(segs[n..])
  }

  // ---------------------------------------------------------------- the resolver

  /** One segment onto the stack: empty and `.` segments vanish, `..` removes the last
      name; with nothing left to remove, an absolute path stays at its root and a relative
      path keeps the `..`. */
  function Step(stack: seq<string>, seg: string, absolute: bool): seq<string> {
    if seg == "" || seg == "." then stack
    else if seg == ".." then
      if |stack| > 0 && stack[|stack| - 1] != ".." then stack[..|stack| - 1]
      else if absolute then stack
      else stack + [".."]
    else stack + [seg]
  }

  function Fold(stack: seq<string>, segs: seq<string>, absolute: bool): seq<string>
    decreases |segs|
  {
    if segs == [] then stack else Fold(Step(stack, segs[0], absolute), segs[1..], absolute)
  }

  /** A Node path after `path.normalize`: whether it is absolute, and its segments. */
  datatype NodePath = NodePath(absolute: bool, segs: seq<string>)

  /** `path.normalize(p)`. */
  function Normalize(p: string): NodePath {
    var absolute := p != [] && p[0] == '/';
    NodePath(absolute, Fold([], Split(p), absolute))
  }

  /** `.replace(/^(\.\.(\/|\\|$))+/, '')` on the normalised text: every leading `..`
      segment dropped. */
  function StripParents(segs: seq<string>): (r: seq<string>)
    ensures |r| <= |segs| && segs[|segs| - |r|..] == r
    ensures forall i :: 0 <= i < |segs| - |r| ==> segs[i] == ".."
    ensures r == [] || r[0] != ".."
    decreases |segs|
  {
    if segs != [] && segs[0] == ".." then StripParents(segs[1..]) else segs
  }

  function StripParentsPath(p: NodePath): NodePath {
    if p.absolute then p else NodePath(false, StripParents(p.segs))
  }

  /** `path.resolve(root, p)` for an absolute, normalised `root`. */
  function Resolve(root: seq<string>, p: NodePath): seq<string> {
    if p.absolute then p.segs else Fold(root, p.segs, true)
  }

  /** The text of an absolute path: `/a/b`, or `/` for the root. */
  function Joined(segs: seq<string>): string
    decreases |segs|
  {
    if segs == [] then "" else "/" + segs[0] + Joined(segs[1..])
  }

  function PathText(segs: seq<string>): string {
    if segs == [] then "/" else Joined(segs)
  }

  /** `filePath === PUBLIC_DIR || filePath.startsWith(PUBLIC_DIR + path.sep)` */
  predicate Within(root: string, filePath: string) {
    filePath == root || StartsWith(filePath, root + "/")
  }

  datatype StaticDecision = Forbidden | Serve(filePath: string)

  /** server.js from the pathname to the guard. `root` is `PUBLIC_DIR`, as segments.
      Below a real directory the guard never refuses: whatever the pathname, the file
      served is the directory followed by the cleaned request's names. */
  function ServeStatic(root: seq<string>, pathname: string): (d: StaticDecision)
    ensures d.Serve? ==> d.filePath == PathText(Resolve(root, RequestPath(pathname)))
    // only a file inside the public directory is ever served
    ensures d.Serve? ==> Within(PathText(root), d.filePath)
    ensures |root| > 0 && Canonical(root) ==>
              Canonical(RequestPath(pathname).segs) && d == Serve(PathText(root + RequestPath(pathname).segs))
  {
    ResolvesBelow(root, pathname);
    var filePath := PathText(Resolve(root, RequestPath(pathname)));
    if Within(PathText(root), filePath) then Serve(filePath) else Forbidden
  }

  /** `requestedPath` normalised and cleaned of leading `..` segments. */
  function RequestPath(pathname: string): NodePath {
    StripParentsPath(Normalize(StripLeadingSlashes(pathname)))
  }

  // ---------------------------------------------------------------- resolver lemmas

  lemma RelativeNormalEmpty()
    ensures RelativeNormal([])
  {
    assert Canonical([][0..]);
  }

  /** A relative fold keeps the `..`-then-names shape. */
  lemma {:induction false} FoldRelativeNormal(stack: seq<string>, segs: seq<string>)
    requires RelativeNormal(stack)
    requires forall k :: 0 <= k < |segs| ==> '/' !in segs[k]
    ensures RelativeNormal(Fold(stack, segs, false))
    decreases |segs|
  {
    if segs != [] {
      var seg := segs[0];
      var next := Step(stack, seg, false);
      var n :| 0 <= n <= |stack| && (forall k :: 0 <= k < n ==> stack[k] == "..") && Canonical(stack[n..]);
      if seg == "" || seg == "." {
      } else if seg == ".." {
        if |stack| > 0 && stack[|stack| - 1] != ".." {
          assert n < |stack|;
          assert next[n..] == stack[n..][..|stack| - 1 - n];
          assert RelativeNormal(next);
        } else {
          assert n == |stack|;
          assert next == stack + [".."];
          assert forall k :: 0 <= k < n + 1 ==> next[k] == "..";
          assert next[n + 1..] == [];
          assert RelativeNormal(next);
        }
      } else {
        assert IsName(seg);
        assert next[n..] == stack[n..] + [seg];
        assert RelativeNormal(next);
      }
      FoldRelativeNormal(next, segs[1..]);
    }
  }

  /** Leading `..` gone from a normalised relative path, only names remain. */
  lemma {:induction false} StripParentsCanonical(segs: seq<string>)
    requires RelativeNormal(segs)
    ensures Canonical(StripParents(segs))
    decreases |segs|
  {
    var n :| 0 <= n <= |segs| && (forall k :: 0 <= k < n ==> segs[k] == "..") && Canonical(segs[n..]);
    if segs != [] && segs[0] == ".." {
      assert n > 0;
      assert segs[1..][n - 1..] == segs[n..];
      StripParentsCanonical(segs[1..]);
    } else {
      assert n == 0;
    }
  }

  /** The cleaned request path is relative and made of names only. */
  lemma RequestPathCanonical(pathname: string)
    ensures !RequestPath(pathname).absolute
    ensures Canonical(RequestPath(pathname).segs)
  {
    var s := StripLeadingSlashes(pathname);
    RelativeNormalEmpty();
    FoldRelativeNormal([], Split(s));
    StripParentsCanonical(Fold([], Split(s), false));
  }

  /** Names are pushed one by one onto an absolute stack. */
  lemma {:induction false} FoldNames(stack: seq<string>, segs: seq<string>, absolute: bool)
    requires Canonical(segs)
    ensures Fold(stack, segs, absolute) == stack + segs
    decreases |segs|
  {
    if segs != [] {
      assert IsName(segs[0]);
      FoldNames(stack + [segs[0]], segs[1..], absolute);
      assert stack + [segs[0]] + segs[1..] == stack + segs;
    }
  }

  lemma {:induction false} JoinedAppend(a: seq<string>, b: seq<string>)
    ensures Joined(a + b) == Joined(a) + Joined(b)
    decreases |a|
  {
    if a == [] {
      assert a + b == b;
    } else {
      assert (a + b)[0] == a[0];
      assert (a + b)[1..] == a[1..] + b;
      JoinedAppend(a[1..], b);
      calc {
        Joined(a + b);
        "/" + a[0] + Joined(a[1..] + b);
        "/" + a[0] + (Joined(a[1..]) + Joined(b));
        ("/" + a[0] + Joined(a[1..])) + Joined(b);
      }
    }
  }

  /** Whatever the pathname, the resolved file is the public directory followed by the
      cleaned request segments, and the containment guard lets it through: the 403 branch
      is never taken once the leading slashes and `..` segments are stripped. */
  lemma ResolvesBelow(root: seq<string>, pathname: string)
    ensures |root| > 0 && Canonical(root) ==>
              var rel := RequestPath(pathname);
              Canonical(rel.segs) && Resolve(root, rel) == root + rel.segs
              && Within(PathText(root), PathText(root + rel.segs))
  {
    if |root| > 0 && Canonical(root) {
      var rel := RequestPath(pathname);
      RequestPathCanonical(pathname);
      FoldNames(root, rel.segs, true);
      var p := root + rel.segs;
      assert Canonical(p) by {
        forall k | 0 <= k < |p| ensures IsName(p[k]) {
          if k >= |root| { assert p[k] == rel.segs[k - |root|]; }
        }
      }
      assert root <= p;
      GuardAdmits(root, p);
    }
  }

  /** In `/<x><t>` with `x` free of separators and `t` empty or opening with one, `x`
      fills positions 1 to `|x|` and the next character, if there is one, is a separator. */
  lemma FirstSeparator(x: string, t: string)
    requires '/' !in x && (t == [] || t[0] == '/')
    ensures var j := "/" + x + t;
            |j| >= 1 + |x| && j[1..1 + |x|] == x && j[1 + |x|..] == t
            && (forall i :: 1 <= i < 1 + |x| ==> j[i] != '/')
            && (|j| == 1 + |x| || j[1 + |x|] == '/')
  {
    var j := "/" + x + t;
    assert j[1..1 + |x|] == x;
    forall i | 1 <= i < 1 + |x| ensures j[i] != '/' {
      assert j[i] == x[i - 1];
    }
    assert j[1 + |x|..] == t;
  }

  /** When `/<x><s>` is a prefix of `/<y><t>` ending at a separator or at the end, the two
      first names are the same. */
  lemma SameFirstName(x: string, y: string, s: string, t: string)
    requires '/' !in x && '/' !in y && (s == [] || s[0] == '/') && (t == [] || t[0] == '/')
    requires var ja, jb := "/" + x + s, "/" + y + t;
             |ja| <= |jb| && jb[..|ja|] == ja && (|ja| == |jb| || jb[|ja|] == '/')
    ensures x == y
  {
    var ja, jb := "/" + x + s, "/" + y + t;
    FirstSeparator(x, s);
    FirstSeparator(y, t);
    assert forall i :: 0 <= i < |ja| ==> jb[i] == ja[i] by {
      forall i | 0 <= i < |ja| ensures jb[i] == ja[i] {
        assert jb[i] == jb[..|ja|][i];
      }
    }
    assert |x| == |y|;
    assert x == ja[1..1 + |x|] == jb[1..1 + |y|] == y;
  }

  /** The guard's test as a string fact: the directory's text is a prefix of the file's,
      ending where the file's ends or has a separator. */
  lemma WithinPrefix(r: string, f: string)
    requires Within(r, f)
    ensures |r| <= |f| && f[..|r|] == r && (|r| == |f| || f[|r|] == '/')
  {
    if f != r {
      assert f[..|r| + 1] == r + "/";
      assert f[..|r|] == f[..|r| + 1][..|r|];
      assert f[|r|] == f[..|r| + 1][|r|];
    }
  }

  /** Over canonical segments, `Joined(a)` ends where `Joined(b)` has a separator or ends
      only if `a` is a prefix of `b`. */
  lemma {:induction false} JoinedPrefix(a: seq<string>, b: seq<string>)
    requires Canonical(a) && Canonical(b)
    requires |Joined(a)| <= |Joined(b)| && Joined(b)[..|Joined(a)|] == Joined(a)
    requires |Joined(a)| == |Joined(b)| || Joined(b)[|Joined(a)|] == '/'
    ensures a <= b
    decreases |a|
  {
    if a != [] {
      if b == [] {
        assert false;
      }
      var x, y := a[0], b[0];
      assert IsName(x) && IsName(y);
      var ja, jb := Joined(a), Joined(b);
      assert ja == "/" + x + Joined(a[1..]);
      assert jb == "/" + y + Joined(b[1..]);
      JoinedShape(a[1..]);
      JoinedShape(b[1..]);
      SameFirstName(x, y, Joined(a[1..]), Joined(b[1..]));
      FirstSeparator(x, Joined(a[1..]));
      FirstSeparator(y, Joined(b[1..]));
      var k := 1 + |x|;
      var ta, tb := Joined(a[1..]), Joined(b[1..]);
      assert ta == ja[k..] && tb == jb[k..];
      assert |ta| <= |tb|;
      assert tb[..|ta|] == jb[k..|ja|] == jb[..|ja|][k..] == ta;
      assert |ta| == |tb| || tb[|ta|] == jb[|ja|] == '/';
      assert Canonical(a[1..]) by {
        forall i | 0 <= i < |a[1..]| ensures IsName(a[1..][i]) { assert a[1..][i] == a[i + 1]; }
      }
      assert Canonical(b[1..]) by {
        forall i | 0 <= i < |b[1..]| ensures IsName(b[1..][i]) { assert b[1..][i] == b[i + 1]; }
      }
      JoinedPrefix(a[1..], b[1..]);
      assert a == [x] + a[1..] && b == [y] + b[1..];
    }
  }

  /** The text of a non-empty canonical path starts with a separator. */
  lemma JoinedShape(segs: seq<string>)
    ensures Joined(segs) == [] || Joined(segs)[0] == '/'
  {
  }

  /** Every file below the directory passes the guard. */
  lemma GuardAdmits(root: seq<string>, p: seq<string>)
    requires |root| > 0 && Canonical(root) && Canonical(p)
    requires root <= p
    ensures Within(PathText(root), PathText(p))
  {
    var rest := p[|root|..];
    assert p == root + rest;
    JoinedAppend(root, rest);
    if rest != [] {
      assert IsName(rest[0]);
      var jr := Joined(root);
      assert Joined(rest) == "/" + rest[0] + Joined(rest[1..]);
      assert (jr + Joined(rest))[..|jr| + 1] == jr + "/";
    }
  }

  /** A non-empty canonical path has a text longer than the root's `/`. */
  lemma JoinedLength(segs: seq<string>)
    requires |segs| > 0 && IsName(segs[0])
    ensures |Joined(segs)| >= 2
  {
  }

  /** Only files below the directory pass the guard. */
  lemma GuardConfines(root: seq<string>, p: seq<string>)
    requires |root| > 0 && Canonical(root) && Canonical(p)
    requires Within(PathText(root), PathText(p))
    ensures root <= p
  {
    var jr := Joined(root);
    JoinedLength(root);
    assert PathText(root) == jr;
    WithinPrefix(jr, PathText(p));
    if p == [] {
      assert false;
    }
    JoinedPrefix(root, p);
  }

  /** The guard is exact: over canonical paths below a non-root directory, `Within` holds
      precisely when the directory's segments are a prefix of the file's. */
  lemma GuardExact(root: seq<string>, p: seq<string>)
    requires |root| > 0 && Canonical(root) && Canonical(p)
    ensures Within(PathText(root), PathText(p)) <==> root <= p
  {
    if root <= p {
      GuardAdmits(root, p);
    }
    if Within(PathText(root), PathText(p)) {
      GuardConfines(root, p);
    }
  }

  /** `Split` over a piece without separators, then the rest. */
  lemma {:induction false} SplitPiece(a: string, b: string)
    requires '/' !in a
    ensures Split(a + "/" + b) == [a] + Split(b)
    decreases |a|
  {
    if a == [] {
      assert a + "/" + b == "/" + b;
      assert ("/" + b)[1..] == b;
    } else {
      assert (a + "/" + b)[1..] == a[1..] + "/" + b;
      SplitPiece(a[1..], b);
      assert [a[0]] + a[1..] == a;
    }
  }

  /** A piece without separators splits into itself. */
  lemma {:induction false} SplitWhole(a: string)
    requires '/' !in a
    ensures Split(a) == [a]
    decreases |a|
  {
    if a != [] {
      SplitWhole(a[1..]);
      assert [a[0]] + a[1..] == a;
    }
  }

  /** The segments of `<x>/<y>/<a>/<b>`. */
  lemma SplitFour(x: string, y: string, a: string, b: string)
    requires '/' !in x && '/' !in y && '/' !in a && '/' !in b
    ensures Split(x + "/" + y + "/" + a + "/" + b) == [x, y, a, b]
  {
    assert x + "/" + y + "/" + a + "/" + b == x + "/" + (y + "/" + (a + "/" + b));
    SplitWhole(b);
    SplitPiece(a, b);
    SplitPiece(y, a + "/" + b);
    SplitPiece(x, y + "/" + (a + "/" + b));
  }

  /** `/../../<a>/<b>` cleans up to the relative path `<a>/<b>`. */
  lemma TraversalRequestPath(a: string, b: string)
    requires IsName(a) && IsName(b)
    ensures RequestPath("/../../" + a + "/" + b) == NodePath(false, [a, b])
  {
    var pathname := "/../../" + a + "/" + b;
    var s := ".." + "/" + ".." + "/" + a + "/" + b;
    assert pathname == "/" + s;
    assert pathname[1..] == s;
    assert StripLeadingSlashes(pathname) == s;
    SplitFour("..", "..", a, b);
    assert Normalize(s) == NodePath(false, Fold([], ["..", "..", a, b], false));
    TraversalFold(a, b);
  }

  /** The two `..` segments stay on a relative stack and are then stripped. */
  lemma TraversalFold(a: string, b: string)
    requires IsName(a) && IsName(b)
    ensures StripParents(Fold([], ["..", "..", a, b], false)) == [a, b]
  {
    TraversalStack(a, b);
    var t := ["..", "..", a, b];
    assert t[1..] == ["..", a, b];
    assert t[1..][1..] == [a, b];
    assert StripParents(t) == StripParents(t[1..]) == StripParents(t[1..][1..]);
  }

  lemma TraversalStack(a: string, b: string)
    requires IsName(a) && IsName(b)
    ensures Fold([], ["..", "..", a, b], false) == ["..", "..", a, b]
  {
    assert ["..", "..", a, b][1..] == ["..", a, b];
    assert ["..", a, b][1..] == [a, b];
    assert Step([], "..", false) == [".."];
    assert Step([".."], "..", false) == ["..", ".."];
    FoldNames(["..", ".."], [a, b], false);
  }

  /** The classic traversal request `/../../<a>/<b>` is kept inside the public directory:
      it names `<a>/<b>` below it. */
  lemma TraversalStaysInside(root: seq<string>, a: string, b: string)
    requires |root| > 0 && Canonical(root) && IsName(a) && IsName(b)
    ensures ServeStatic(root, "/../../" + a + "/" + b) == Serve(PathText(root + [a, b]))
  {
    TraversalRequestPath(a, b);
  }

  /** Without the leading-slash strip, `//<a>/<b>` would resolve to the absolute path
      `/<a>/<b>`; the guard is what would stop it. */
  lemma AbsoluteRequestForbidden(root: seq<string>, a: string, b: string)
    requires |root| > 0 && Canonical(root) && IsName(a) && IsName(b) && root[0] != a
    ensures var p := StripParentsPath(Normalize("//" + a + "/" + b));
            !Within(PathText(root), PathText(Resolve(root, p)))
  {
    var s := "//" + a + "/" + b;
    assert s == "" + "/" + "" + "/" + a + "/" + b;
    SplitFour("", "", a, b);
    assert s[0] == '/';
    var stack := Fold([], ["", "", a, b], true);
    assert ["", "", a, b][1..] == ["", a, b];
    assert ["", a, b][1..] == [a, b];
    assert stack == Fold([], ["", a, b], true) == Fold([], [a, b], true);
    FoldNames([], [a, b], true);
    assert Normalize(s) == NodePath(true, [a, b]);
    GuardExact(root, [a, b]);
  }

  // ---------------------------------------------------------------- content type

  const MimeTypes: map<string, string> := map[
    ".html" := "text/html; charset=utf-8",
    ".css" := "text/css; charset=utf-8",
    ".js" := "application/javascript; charset=utf-8",
    ".json" := "application/json; charset=utf-8",
    ".png" := "image/png",
    ".jpg" := "image/jpeg",
    ".jpeg" := "image/jpeg",
    ".svg" := "image/svg+xml",
    ".ico" := "image/x-icon"
  ]

  const DefaultType := "application/octet-stream"
  const TextPlain := "text/plain; charset=utf-8"

  /** `s.lastIndexOf(c)`: the last position holding `c`, or -1. */
  function LastIndex(s: string, c: char): (r: int)
    ensures -1 <= r < |s|
    ensures r >= 0 ==> s[r] == c
    ensures forall j :: r < j < |s| ==> s[j] != c
    decreases |s|
  {
    if s == [] then -1
    else if s[|s| - 1] == c then |s| - 1
    else LastIndex(s[..|s| - 1], c)
  }

  /** The last occurrence is the one with no other after it. */
  lemma LastIndexAt(s: string, c: char, k: nat)
    requires k < |s| && s[k] == c
    requires forall j :: k < j < |s| ==> s[j] != c
    ensures LastIndex(s, c) == k
  {
  }

  /** The part after the last separator. */
  function Basename(p: string): (b: string)
    ensures '/' !in b
    ensures EndsWith(p, b)
  {
    p[LastIndex(p, '/') + 1..]
  }

  /** `path.extname(p)` for a path without a trailing separator: from the last `.` of the
      base name on, or empty when there is no dot, the dot opens the name, or the name
      is `..`. */
  function ExtName(p: string): (e: string)
    ensures e == [] || (e[0] == '.' && '.' !in e[1..] && '/' !in e && EndsWith(p, e))
    ensures EndsWith(Basename(p), e)
    ensures e != [] <==> LastIndex(Basename(p), '.') > 0 && Basename(p) != ".."
    ensures e != [] ==> |e| == |Basename(p)| - LastIndex(Basename(p), '.')
    ensures '.' !in Basename(p) ==> e == []
  {
    var b := Basename(p);
    var d := LastIndex(b, '.');
    if d <= 0 || b == ".." then [] else b[d..]
  }

  /** The content type `sendFile` sends a file with: the table's entry for the lower-cased
      extension, or the default type when the table has none. */
  function ContentType(filePath: string): (t: string)
    ensures Lower(ExtName(filePath)) in MimeTypes ==> t == MimeTypes[Lower(ExtName(filePath))]
    ensures Lower(ExtName(filePath)) !in MimeTypes ==> t == DefaultType
  {
    var ext := Lower(ExtName(filePath));
    if ext in MimeTypes then MimeTypes[ext] else DefaultType
  }

  /** No listed extension is sent with the default type. */
  lemma DefaultTypeUnlisted()
    ensures forall ext :: ext in MimeTypes ==> MimeTypes[ext] != DefaultType
  {
  }

  /** So the default type marks exactly the files whose extension is not in the table. */
  lemma DefaultOnlyWhenUnlisted(filePath: string)
    ensures ContentType(filePath) == DefaultType <==> Lower(ExtName(filePath)) !in MimeTypes
  {
    DefaultTypeUnlisted();
  }

  /** The extension of `<dir>/<stem><ext>` is `ext` when `ext` is one dot followed by no
      other; the stem may hold further dots (`app.min.js`). */
  lemma ExtNameOfStem(dir: string, name: string, ext: string)
    requires name != [] && '/' !in name
    requires |ext| >= 2 && ext[0] == '.' && '.' !in ext[1..] && '/' !in ext
    ensures ExtName(dir + "/" + name + ext) == ext
  {
    var p := dir + "/" + name + ext;
    assert p[|dir|] == '/';
    forall j | |dir| < j < |p| ensures p[j] != '/' {
      if j < |dir| + 1 + |name| { assert p[j] == name[j - |dir| - 1]; }
      else { assert p[j] == ext[j - |dir| - 1 - |name|]; }
    }
    LastIndexAt(p, '/', |dir|);
    var b := Basename(p);
    assert b == name + ext;
    assert b[|name|] == '.';
    forall j | |name| < j < |b| ensures b[j] != '.' {
      assert b[j] == ext[1..][j - |name| - 1];
    }
    LastIndexAt(b, '.', |name|);
    assert |b| >= 3;
    assert b[|name|..] == ext;
  }

  /** A file `<dir>/<stem><ext>` whose extension is in the table, in any letter case,
      gets that table entry. */
  lemma KnownExtension(dir: string, name: string, ext: string)
    requires name != [] && '/' !in name
    requires ext != [] && ext[0] == '.' && '.' !in ext[1..] && '/' !in ext
    requires Lower(ext) in MimeTypes
    ensures ExtName(dir + "/" + name + ext) == ext
    ensures ContentType(dir + "/" + name + ext) == MimeTypes[Lower(ext)]
  {
    TableExtensions(Lower(ext));
    ExtNameOfStem(dir, name, ext);
  }

  /** Every extension in the table is a dot and at least two more characters. */
  lemma TableExtensions(ext: string)
    requires ext in MimeTypes
    ensures |ext| >= 3
  {
  }

  /** A dotfile and a name without a dot both fall back to the default type. */
  lemma DefaultForDotlessOrDotfile(dir: string, name: string)
    requires '/' !in name && '.' !in name
    ensures ContentType(dir + "/" + name) == DefaultType
    ensures ContentType(dir + "/." + name) == DefaultType
  {
    var p := dir + "/" + name;
    assert p[|dir|] == '/';
    forall j | |dir| < j < |p| ensures p[j] != '/' { assert p[j] == name[j - |dir| - 1]; }
    LastIndexAt(p, '/', |dir|);
    assert Basename(p) == name;
    var q := dir + "/." + name;
    forall j | |dir| < j < |q| ensures q[j] != '/' {
      if j > |dir| + 1 { assert q[j] == name[j - |dir| - 2]; }
    }
    assert q[|dir|] == '/';
    LastIndexAt(q, '/', |dir|);
    var b := Basename(q);
    assert b == "." + name;
    assert b[0] == '.';
    forall j | 0 < j < |b| ensures b[j] != '.' { assert b[j] == name[j - 1]; }
    LastIndexAt(b, '.', 0);
    assert !(Lower([]) in MimeTypes);
  }

  // ---------------------------------------------------------------- sending

  datatype StaticBody = TextBody(text: string) | FileBody(data: seq<bv8>)

  datatype StaticAnswer = StaticAnswer(status: nat, contentType: string, body: StaticBody)

  /** `sendFile`: `contents` is what `fs.readFile` would deliver for `filePath`, or None
      when it fails. */
  function SendFile(filePath: string, contents: Option<seq<bv8>>): (a: StaticAnswer)
    ensures contents.None? <==> a.status == 404
    ensures contents.None? ==> a == StaticAnswer(404, TextPlain, TextBody("Not found"))
    ensures contents.Some? ==> a == StaticAnswer(200, ContentType(filePath), FileBody(contents.value))
  {
    match contents
    case None => StaticAnswer(404, TextPlain, TextBody("Not found"))
    case Some(data) => StaticAnswer(200, ContentType(filePath), FileBody(data))
  }

  /** A static request end to end: the guard, then `sendFile` with the read outcome. */
  function StaticAnswerOf(root: seq<string>, pathname: string, contents: Option<seq<bv8>>): (a: StaticAnswer)
    ensures a.status == 200 || a.status == 403 || a.status == 404
    ensures a.status == 403 ==> a == StaticAnswer(403, TextPlain, TextBody("Forbidden"))
    ensures |root| > 0 && Canonical(root) ==>
              a == SendFile(PathText(root + RequestPath(pathname).segs), contents)
  {
    match ServeStatic(root, pathname)
    case Forbidden => StaticAnswer(403, TextPlain, TextBody("Forbidden"))
    case Serve(filePath) => SendFile(filePath, contents)
  }

  /** Below a canonical public directory, a static request is answered 200 with the file
      or 404, never 403. */
  lemma StaticNeverForbidden(root: seq<string>, pathname: string, contents: Option<seq<bv8>>)
    requires |root| > 0 && Canonical(root)
    ensures StaticAnswerOf(root, pathname, contents).status == (if contents.Some? then 200 else 404)
  {
  }
}
