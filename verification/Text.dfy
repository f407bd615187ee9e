/** Go's `strings` and `path` functions, as far as the key construction uses them. */
module Text {

  predicate HasPrefix(s: string, prefix: string) {
    prefix <= s
  }

  predicate HasSuffix(s: string, suffix: string) {
    |suffix| <= |s| && s[|s| - |suffix|..] == suffix
  }

  function TrimPrefix(s: string, prefix: string): string {
    if HasPrefix(s, prefix) then s[|prefix|..] else s
  }

  function TrimSuffix(s: string, suffix: string): string {
    if HasSuffix(s, suffix) then s[..|s| - |suffix|] else s
  }

  function TrimLeftSlash(s: string): string {
    if s != "" && s[0] == '/' then TrimLeftSlash(s[1..]) else s
  }

  function TrimRightSlash(s: string): string {
    if s != "" && s[|s| - 1] == '/' then TrimRightSlash(s[..|s| - 1]) else s
  }

  function TrimSlash(s: string): string {
    TrimRightSlash(TrimLeftSlash(s))
  }

  /** `strings.ReplaceAll(s, "-", "")` */
  function RemoveDashes(s: string): string {
    if s == "" then ""
    else if s[0] == '-' then RemoveDashes(s[1..])
    else [s[0]] + RemoveDashes(s[1..])
  }

  /** `strings.Split(s, "/")` */
  function Components(s: string): (parts: seq<string>)
    ensures parts != []
  {
    if s == "" then [""]
    else
      var rest := Components(s[1..]);
      if s[0] == '/' then [""] + rest else [[s[0]] + rest[0]] + rest[1..]
  }

  /** `strings.Join(parts, "/")` */
  function JoinSlash(parts: seq<string>): string {
    if |parts| == 0 then ""
    else if |parts| == 1 then parts[0]
    else parts[0] + "/" + JoinSlash(parts[1..])
  }

  /** The elimination of empty, `.` and `..` elements that `path.Clean` performs. */
  function Resolve(rooted: bool, parts: seq<string>, stack: seq<string>): seq<string>
    decreases parts
  {
    if parts == [] then stack
    else if parts[0] == "" || parts[0] == "." then Resolve(rooted, parts[1..], stack)
    else if parts[0] == ".." then
      if stack != [] && stack[|stack| - 1] != ".." then Resolve(rooted, parts[1..], stack[..|stack| - 1])
      else if rooted then Resolve(rooted, parts[1..], stack)
      else Resolve(rooted, parts[1..], stack + [".."])
    else Resolve(rooted, parts[1..], stack + [parts[0]])
  }

  function CleanPath(s: string): string {
    var rooted := s != "" && s[0] == '/';
    var stack := Resolve(rooted, Components(s), []);
    if rooted then "/" + JoinSlash(stack)
    else if stack == [] then "."
    else JoinSlash(stack)
  }

  function NonEmpty(parts: seq<string>): seq<string> {
    if parts == [] then []
    else (if parts[0] == "" then [] else [parts[0]]) + NonEmpty(parts[1..])
  }

  /** `path.Join` */
  function PathJoin(parts: seq<string>): string {
    var kept := NonEmpty(parts);
    if kept == [] then "" else CleanPath(JoinSlash(kept))
  }

  // ----- facts -----

  /** An ordinary path element: `path.Clean` keeps it as it is. */
  predicate Plain(part: string) {
    part != "" && part != "." && part != ".." && '/' !in part
  }

  lemma {:induction false} ComponentsOfJoin(a: string, b: string)
    ensures Components(a + "/" + b) == Components(a) + Components(b)
  {
    var s := a + "/" + b;
    if a == "" {
      assert s[1..] == b;
    } else {
      assert s[1..] == a[1..] + "/" + b;
      ComponentsOfJoin(a[1..], b);
    }
  }

  lemma {:induction false} ComponentsOfPlain(s: string)
    requires '/' !in s
    ensures Components(s) == [s]
  {
    if s != "" {
      assert forall c :: c in s[1..] ==> c in s;
      ComponentsOfPlain(s[1..]);
      assert [s[0]] + s[1..] == s;
    }
  }

  lemma {:induction false} ComponentsOfParts(parts: seq<string>)
    requires parts != []
    requires forall p :: p in parts ==> Plain(p)
    ensures Components(JoinSlash(parts)) == parts
  {
    assert Plain(parts[0]);
    ComponentsOfPlain(parts[0]);
    if |parts| > 1 {
      assert forall p :: p in parts[1..] ==> p in parts;
      ComponentsOfParts(parts[1..]);
      ComponentsOfJoin(parts[0], JoinSlash(parts[1..]));
    }
  }

  lemma {:induction false} ResolveAppend(rooted: bool, xs: seq<string>, ys: seq<string>, stack: seq<string>)
    ensures Resolve(rooted, xs + ys, stack) == Resolve(rooted, ys, Resolve(rooted, xs, stack))
    decreases xs
  {
    if xs == [] {
      assert xs + ys == ys;
    } else {
      assert (xs + ys)[1..] == xs[1..] + ys;
      if xs[0] == "" || xs[0] == "." {
        ResolveAppend(rooted, xs[1..], ys, stack);
      } else if xs[0] == ".." {
        if stack != [] && stack[|stack| - 1] != ".." {
          ResolveAppend(rooted, xs[1..], ys, stack[..|stack| - 1]);
        } else if rooted {
          ResolveAppend(rooted, xs[1..], ys, stack);
        } else {
          ResolveAppend(rooted, xs[1..], ys, stack + [".."]);
        }
      } else {
        ResolveAppend(rooted, xs[1..], ys, stack + [xs[0]]);
      }
    }
  }

  lemma {:induction false} ResolvePlain(rooted: bool, parts: seq<string>, stack: seq<string>)
    requires forall p :: p in parts ==> Plain(p)
    ensures Resolve(rooted, parts, stack) == stack + parts
    decreases parts
  {
    if parts != [] {
      assert forall p :: p in parts[1..] ==> p in parts;
      assert Plain(parts[0]);
      ResolvePlain(rooted, parts[1..], stack + [parts[0]]);
      assert stack + [parts[0]] + parts[1..] == stack + parts;
    }
  }

  lemma {:induction false} JoinAppend(xs: seq<string>, ys: seq<string>)
    requires ys != []
    ensures JoinSlash(xs + ys) == if xs == [] then JoinSlash(ys) else JoinSlash(xs) + "/" + JoinSlash(ys)
  {
    if xs == [] {
      assert xs + ys == ys;
    } else {
      assert (xs + ys)[1..] == xs[1..] + ys;
      JoinAppend(xs[1..], ys);
      if |xs| > 1 {
        assert JoinSlash(xs) == xs[0] + "/" + JoinSlash(xs[1..]);
        assert JoinSlash(xs + ys) == xs[0] + "/" + (JoinSlash(xs[1..]) + "/" + JoinSlash(ys));
      }
    }
  }

  lemma PlainJoinStart(parts: seq<string>)
    requires parts != []
    requires forall p :: p in parts ==> Plain(p)
    ensures JoinSlash(parts) != "" && JoinSlash(parts)[0] != '/'
  {
    assert Plain(parts[0]);
    assert parts[0][0] in parts[0];
  }

  /** Joining ordinary elements only puts slashes between them. */
  lemma PathJoinPlain(parts: seq<string>)
    requires parts != []
    requires forall p :: p in parts ==> Plain(p)
    ensures PathJoin(parts) == JoinSlash(parts)
  {
    NonEmptyPlain(parts);
    PlainJoinStart(parts);
    ComponentsOfParts(parts);
    ResolvePlain(false, parts, []);
    assert [] + parts == parts;
  }

  lemma {:induction false} NonEmptyPlain(parts: seq<string>)
    requires forall p :: p in parts ==> Plain(p)
    ensures NonEmpty(parts) == parts
  {
    if parts != [] {
      assert Plain(parts[0]);
      assert forall p :: p in parts[1..] ==> p in parts;
      NonEmptyPlain(parts[1..]);
    }
  }

  lemma {:induction false} TrimmedEnds(s: string)
    ensures TrimSlash(s) != "" ==> TrimSlash(s)[0] != '/' && TrimSlash(s)[|TrimSlash(s)| - 1] != '/'
  {
    TrimLeftStart(s);
    TrimRightEnd(TrimLeftSlash(s));
  }

  lemma {:induction false} TrimLeftStart(s: string)
    ensures TrimLeftSlash(s) != "" ==> TrimLeftSlash(s)[0] != '/'
  {
    if s != "" && s[0] == '/' {
      TrimLeftStart(s[1..]);
    }
  }

  lemma {:induction false} TrimRightEnd(s: string)
    ensures TrimRightSlash(s) <= s
    ensures TrimRightSlash(s) != "" ==> TrimRightSlash(s)[|TrimRightSlash(s)| - 1] != '/'
  {
    if s != "" && s[|s| - 1] == '/' {
      TrimRightEnd(s[..|s| - 1]);
    }
  }

  lemma {:induction false} RemoveDashesAppend(a: string, b: string)
    ensures RemoveDashes(a + b) == RemoveDashes(a) + RemoveDashes(b)
  {
    if a == "" {
      assert a + b == b;
    } else {
      assert (a + b)[1..] == a[1..] + b;
      RemoveDashesAppend(a[1..], b);
    }
  }

  lemma RemoveDash(group: string, rest: string)
    requires '-' !in group
    ensures RemoveDashes(group + ("-" + rest)) == group + RemoveDashes(rest)
  {
    RemoveDashesAppend(group, "-" + rest);
    RemoveDashesNone(group);
    assert ("-" + rest)[1..] == rest;
  }

  lemma {:induction false} RemoveDashesNone(s: string)
    requires '-' !in s
    ensures RemoveDashes(s) == s
  {
    if s != "" {
      assert s[0] in s;
      assert forall c :: c in s[1..] ==> c in s;
      RemoveDashesNone(s[1..]);
    }
  }
}
