/** Where the server keeps the files of an operation, and exactly when two operations share them. */
module OperationFiles {
  import opened Wrappers
  import opened Text
  import opened Ids
  import opened Recovery

  const STATE := "ec-state.tar.gz"
  const CONFIGURATION := "configuration.json"

  function Directory(root: string, id: string): string {
    PathJoin([root, id])
  }

  function StateFile(root: string, id: string): string {
    PathJoin([Directory(root, id), STATE])
  }

  function ConfigurationFile(root: string, id: string): string {
    PathJoin([Directory(root, id), CONFIGURATION])
  }

  /** Where a bootstrap restore puts the archive that it has decrypted. */
  function RestoredFile(root: string, id: string): string {
    PathJoin([Directory(root, id), RESTORED])
  }

  /** Request validation accepts every text that `uuid.Parse` accepts as an operation ID. */
  predicate Accepted(id: string) {
    Normalize(id).Some?
  }

  /** The accepted form with an enclosing pair of characters may be enclosed in slashes, which are lost
      when the ID becomes a path element. */
  predicate SharesDirectory(a: string, b: string) {
    a == b || a == "/" + b + "/" || b == "/" + a + "/"
  }

  predicate Apart(ids: set<string>) {
    forall a, b :: a in ids && b in ids && a != b ==> !SharesDirectory(a, b)
  }

  // ----- cleaned paths -----

  predicate Rooted(s: string) {
    s != "" && s[0] == '/'
  }

  function Elements(s: string): seq<string> {
    Resolve(Rooted(s), Components(s), [])
  }

  function Render(rooted: bool, stack: seq<string>): string {
    if rooted then "/" + JoinSlash(stack) else if stack == [] then "." else JoinSlash(stack)
  }

  /** What `Resolve` leaves: ordinary elements, after a number of `..` in a relative path. */
  predicate Resolved(rooted: bool, stack: seq<string>) {
    forall i :: 0 <= i < |stack| ==>
      Plain(stack[i]) || (stack[i] == ".." && !rooted && forall j :: 0 <= j < i ==> stack[j] == "..")
  }

  predicate NoSlash(parts: seq<string>) {
    forall p :: p in parts ==> '/' !in p
  }

  lemma {:induction false} ComponentsHaveNoSlash(s: string)
    ensures NoSlash(Components(s))
  {
    if s != "" {
      ComponentsHaveNoSlash(s[1..]);
      var rest := Components(s[1..]);
      assert rest[0] in rest;
      assert forall p :: p in rest[1..] ==> p in rest;
    }
  }

  lemma {:induction false} ResolveResolves(rooted: bool, parts: seq<string>, stack: seq<string>)
    requires NoSlash(parts) && Resolved(rooted, stack)
    ensures Resolved(rooted, Resolve(rooted, parts, stack))
    decreases parts
  {
    if parts != [] {
      assert parts[0] in parts;
      assert forall p :: p in parts[1..] ==> p in parts;
      if parts[0] == "" || parts[0] == "." {
        ResolveResolves(rooted, parts[1..], stack);
      } else if parts[0] == ".." {
        if stack != [] && stack[|stack| - 1] != ".." {
          ResolveResolves(rooted, parts[1..], stack[..|stack| - 1]);
        } else if rooted {
          ResolveResolves(rooted, parts[1..], stack);
        } else {
          assert Resolved(rooted, stack + [".."]);
          ResolveResolves(rooted, parts[1..], stack + [".."]);
        }
      } else {
        assert Plain(parts[0]);
        ResolveResolves(rooted, parts[1..], stack + [parts[0]]);
      }
    }
  }

  lemma {:induction false} ResolveAgain(rooted: bool, stack: seq<string>, k: nat)
    requires Resolved(rooted, stack) && k <= |stack|
    ensures Resolve(rooted, stack[k..], stack[..k]) == stack
    decreases |stack| - k
  {
    if k == |stack| {
      assert stack[..k] == stack;
    } else {
      assert stack[k..][1..] == stack[k + 1..];
      assert stack[..k] + [stack[k]] == stack[..k + 1];
      ResolveAgain(rooted, stack, k + 1);
    }
  }

  lemma {:induction false} ComponentsOfStack(stack: seq<string>)
    requires stack != [] && NoSlash(stack)
    ensures Components(JoinSlash(stack)) == stack
  {
    assert stack[0] in stack;
    ComponentsOfPlain(stack[0]);
    if |stack| > 1 {
      assert forall p :: p in stack[1..] ==> p in stack;
      ComponentsOfStack(stack[1..]);
      ComponentsOfJoin(stack[0], JoinSlash(stack[1..]));
    }
  }

  /** A cleaned path has the elements it was made of. */
  lemma ElementsOfRender(rooted: bool, stack: seq<string>)
    requires stack != [] && Resolved(rooted, stack)
    ensures Render(rooted, stack) != "" && Rooted(Render(rooted, stack)) == rooted
    ensures Elements(Render(rooted, stack)) == stack
  {
    forall p | p in stack ensures '/' !in p && p != "" {
      var i :| 0 <= i < |stack| && stack[i] == p;
    }
    ComponentsOfStack(stack);
    ResolveAgain(rooted, stack, 0);
    assert stack[0..] == stack && stack[..0] == [];
    var path := JoinSlash(stack);
    assert stack[0] in stack && stack[0] <= path && stack[0][0] in stack[0];
    if rooted {
      ComponentsOfJoin("", path);
      assert "" + "/" + path == "/" + path;
      assert Components("") == [""];
      assert ([""] + stack)[1..] == stack;
    }
  }

  /** Joining one more name resolves its components after the elements of the path. */
  lemma JoinElements(path: string, name: string, more: seq<string>)
    requires path != "" && name != ""
    requires Resolve(Rooted(path), Components(name), Elements(path)) == Elements(path) + more
    ensures PathJoin([path, name]) == Render(Rooted(path), Elements(path) + more)
  {
    assert [path, name][1..] == [name] && [name][1..] == [];
    assert NonEmpty([name]) == [name] + NonEmpty([]);
    assert NonEmpty([path, name]) == [path] + NonEmpty([name]) == [path, name];
    assert JoinSlash([path, name]) == path + "/" + name;
    ComponentsOfJoin(path, name);
    ResolveAppend(Rooted(path), Components(path), Components(name), []);
    assert Rooted(path + "/" + name) == Rooted(path);
    assert CleanPath(path + "/" + name) == Render(Rooted(path), Elements(path + "/" + name));
  }

  // ----- operation IDs as path elements -----

  /** The path element that an accepted ID becomes. */
  function Element(id: string): string {
    if |id| == 38 then
      (if id[0] == '/' then "" else [id[0]]) + id[1..37] + (if id[37] == '/' then "" else [id[37]])
    else id
  }

  lemma DashedHasNoSlash(s: string)
    requires Dashed(s) || Undashed(s)
    ensures '/' !in s
  {
    forall i | 0 <= i < |s| ensures s[i] != '/' {
      assert HexDigit(s[i]) || s[i] == '-';
    }
  }

  lemma UrnHasNoSlash(id: string)
    requires |id| == 45 && Lower(id[..9]) == "urn:uuid:" && Dashed(id[9..])
    ensures '/' !in id
  {
    DashedHasNoSlash(id[9..]);
    assert id == id[..9] + id[9..];
    forall i | 0 <= i < 9 ensures id[i] != '/' {
      assert Lower(id[..9])[i] == LowerChar(id[i]);
    }
  }

  lemma ElementIsPlain(id: string)
    requires Accepted(id)
    ensures Plain(Element(id)) && id != ""
    ensures |id| != 38 ==> '/' !in id
    ensures |id| == 38 ==> '/' !in id[1..37]
  {
    if |id| == 38 {
      DashedHasNoSlash(id[1..37]);
    } else if |id| == 45 {
      UrnHasNoSlash(id);
    } else {
      DashedHasNoSlash(id);
    }
  }

  lemma ElementResolves(rooted: bool, id: string, stack: seq<string>)
    requires Accepted(id)
    ensures Resolve(rooted, Components(id), stack) == stack + [Element(id)]
  {
    hide Accepted;
    ElementIsPlain(id);
    var front := |id| == 38 && id[0] == '/';
    var back := |id| == 38 && id[37] == '/';
    assert id == (if front then "/" else "") + (Element(id) + (if back then "/" else "")) by {
      if |id| == 38 {
        assert id == [id[0]] + id[1..37] + [id[37]];
      }
    }
    hide Element;
    SlashedResolves(rooted, Element(id), front, back, stack);
  }

  lemma SlashedResolves(rooted: bool, element: string, front: bool, back: bool, stack: seq<string>)
    requires Plain(element)
    ensures Resolve(rooted, Components((if front then "/" else "") + (element + (if back then "/" else ""))), stack)
         == stack + [element]
  {
    var inner := element + (if back then "/" else "");
    TrailingSlashResolves(rooted, element, back, stack);
    if front {
      ComponentsOfJoin("", inner);
      assert "" + "/" + inner == "/" + inner;
      assert ([""] + Components(inner))[1..] == Components(inner);
    } else {
      assert "" + inner == inner;
    }
  }

  lemma TrailingSlashResolves(rooted: bool, element: string, back: bool, stack: seq<string>)
    requires Plain(element)
    ensures Resolve(rooted, Components(element + (if back then "/" else "")), stack) == stack + [element]
  {
    ComponentsOfPlain(element);
    ResolvePlain(rooted, [element], stack);
    if back {
      ComponentsOfJoin(element, "");
      assert element + "/" + "" == element + "/";
      ResolveAppend(rooted, [element], [""], stack);
      assert [""][1..] == [];
    } else {
      assert element + "" == element;
    }
  }

  lemma ElementsAreResolved(root: string)
    ensures Resolved(Rooted(root), Elements(root))
  {
    ComponentsHaveNoSlash(root);
    ResolveResolves(Rooted(root), Components(root), []);
  }

  lemma FileForm(root: string, id: string, file: string)
    requires root != "" && Accepted(id) && Plain(file)
    ensures PathJoin([Directory(root, id), file]) == Render(Rooted(root), Elements(root) + [Element(id), file])
    ensures Resolved(Rooted(root), Elements(root) + [Element(id), file])
  {
    hide Accepted;
    var rooted, stack := Rooted(root), Elements(root);
    ElementsAreResolved(root);
    ElementIsPlain(id);
    ElementResolves(rooted, id, stack);
    JoinElements(root, id, [Element(id)]);
    ElementsOfRender(rooted, stack + [Element(id)]);
    ComponentsOfPlain(file);
    ResolvePlain(rooted, [file], stack + [Element(id)]);
    JoinElements(Directory(root, id), file, [file]);
    assert stack + [Element(id)] + [file] == stack + [Element(id), file];
  }

  lemma ElementsDiffer(a: string, b: string)
    requires Accepted(a) && Accepted(b)
    ensures Element(a) == Element(b) <==> SharesDirectory(a, b)
  {
    hide Element, Accepted;
    if |b| == 38 && |a| != 38 {
      OneSlashed(b, a);
    } else if |a| == 38 && |b| != 38 {
      OneSlashed(a, b);
    } else if |a| == 38 {
      BothEnclosed(a, b);
    } else {
      NotEnclosed(a, b);
    }
  }

  lemma NotEnclosed(a: string, b: string)
    requires Accepted(a) && Accepted(b) && |a| != 38 && |b| != 38
    ensures Element(a) == Element(b) <==> a == b
    ensures '/' !in a && '/' !in b
  {
    ElementIsPlain(a);
    ElementIsPlain(b);
  }

  lemma OneSlashed(a: string, b: string)
    requires Accepted(a) && Accepted(b) && |a| == 38 && |b| != 38
    ensures Element(a) == Element(b) <==> a == "/" + b + "/"
    ensures |b| != 40
  {
    assert a == [a[0]] + a[1..37] + [a[37]];
    assert a == "/" + b + "/" ==> a[1..37] == b;
    assert |Element(a)| == 36 ==> Element(a) == a[1..37];
  }

  lemma EnclosedIsDashed(id: string)
    requires Accepted(id) && |id| == 38
    ensures id[9] == '-' && HexDigit(id[8]) && '/' !in id[1..37]
  {
    assert id[1..37][8] == id[9] && id[1..37][7] == id[8];
    DashedHasNoSlash(id[1..37]);
  }

  lemma EnclosedForm(id: string)
    requires Accepted(id) && |id| == 38
    ensures |Element(id)| >= 36 && (Element(id)[8] == '-' <==> id[0] == '/')
    ensures id == [id[0]] + Element(id)[if id[0] == '/' then 0 else 1..] + (if id[37] == '/' then "/" else "")
  {
    hide Accepted, HexDigit;
    EnclosedIsDashed(id);
    var s := id[1..37] + (if id[37] == '/' then "" else [id[37]]);
    assert s[8] == id[9] && s[7] == id[8];
    assert id == [id[0]] + s + (if id[37] == '/' then "/" else "");
    assert Element(id) == if id[0] == '/' then s else [id[0]] + s;
    assert HexDigit(id[8]) ==> id[8] != '-' by { DigitIsNoDash(id[8]); }
    assert ([id[0]] + s)[1..] == s && ([id[0]] + s)[8] == s[7];
  }

  lemma DigitIsNoDash(c: char)
    ensures HexDigit(c) ==> c != '-'
  {
  }

  lemma BothEnclosed(a: string, b: string)
    requires Accepted(a) && Accepted(b) && |a| == |b| == 38
    ensures Element(a) == Element(b) <==> a == b
  {
    EnclosedForm(a);
    EnclosedForm(b);
    hide Element, Accepted;
    if Element(a) == Element(b) {
      assert a[0] == '/' <==> b[0] == '/';
      assert |a| == |b|;
      assert a[37] == '/' <==> b[37] == '/';
      assert a[0] == '/' || a[0] == Element(a)[0];
    }
  }

  /** The three files of an operation: below the cleaned root, in a directory named by the ID without enclosing
      slashes. */
  lemma FileForms(root: string, id: string)
    requires root != "" && Accepted(id)
    ensures var below := Elements(root) + [Element(id)];
            && StateFile(root, id) == Render(Rooted(root), below + ["ec-state.tar.gz"])
            && ConfigurationFile(root, id) == Render(Rooted(root), below + ["configuration.json"])
            && RestoredFile(root, id) == Render(Rooted(root), below + ["ec-state-v1.tar.gz"])
  {
    hide Accepted, Element, Elements;
    assert Plain(STATE) && Plain(CONFIGURATION) && Plain(RESTORED);
    FileForm(root, id, STATE);
    FileForm(root, id, CONFIGURATION);
    FileForm(root, id, RESTORED);
    var stack, element := Elements(root), Element(id);
    assert forall f: string :: stack + [element] + [f] == stack + [element, f];
  }

  /** Two accepted operation IDs share their files if and only if they are equal up to a pair of enclosing
      slashes; uploaded archives, configurations and restored archives are never in one file. */
  lemma FilesApart(root: string, a: string, b: string)
    requires root != "" && Accepted(a) && Accepted(b)
    ensures StateFile(root, a) == StateFile(root, b) <==> SharesDirectory(a, b)
    ensures ConfigurationFile(root, a) == ConfigurationFile(root, b) <==> SharesDirectory(a, b)
    ensures RestoredFile(root, a) == RestoredFile(root, b) <==> SharesDirectory(a, b)
    ensures StateFile(root, a) != ConfigurationFile(root, b)
    ensures RestoredFile(root, a) != StateFile(root, b) && RestoredFile(root, a) != ConfigurationFile(root, b)
    ensures StateFile(root, a) != "" && ConfigurationFile(root, a) != "" && RestoredFile(root, a) != ""
  {
    hide Accepted, SharesDirectory, Element, Elements, Resolved;
    assert Plain(STATE) && Plain(CONFIGURATION) && Plain(RESTORED);
    assert STATE != RESTORED && CONFIGURATION != RESTORED;
    ElementsDiffer(a, b);
    var rooted, stack := Rooted(root), Elements(root);
    forall x, f | x in {a, b} && f in {STATE, CONFIGURATION, RESTORED}
      ensures PathJoin([Directory(root, x), f]) == Render(rooted, stack + [Element(x), f])
      ensures Elements(Render(rooted, stack + [Element(x), f])) == stack + [Element(x), f]
      ensures PathJoin([Directory(root, x), f]) != ""
    {
      FileForm(root, x, f);
      ElementsOfRender(rooted, stack + [Element(x), f]);
    }
    SameTail(stack, Element(a), STATE, Element(b), STATE);
    SameTail(stack, Element(a), CONFIGURATION, Element(b), CONFIGURATION);
    SameTail(stack, Element(a), STATE, Element(b), CONFIGURATION);
    SameTail(stack, Element(a), RESTORED, Element(b), RESTORED);
    SameTail(stack, Element(a), RESTORED, Element(b), STATE);
    SameTail(stack, Element(a), RESTORED, Element(b), CONFIGURATION);
  }

  lemma SameTail(stack: seq<string>, a: string, f: string, b: string, g: string)
    ensures stack + [a, f] == stack + [b, g] <==> a == b && f == g
  {
    var n := |stack|;
    assert (stack + [a, f])[n] == a && (stack + [a, f])[n + 1] == f;
    assert (stack + [b, g])[n] == b && (stack + [b, g])[n + 1] == g;
  }
}
