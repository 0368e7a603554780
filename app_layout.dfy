/** The class-name helper `cn` of `components/layouts/AppLayout.tsx` and the
    class of the layout's `main` element. */
module AppLayout {
  import opened Sequences
  import opened Text

  /** An argument of `cn`: `string | boolean | undefined`. */
  datatype ClassArg = Str(s: string) | Bool(b: bool) | Undefined

  predicate Truthy(arg: ClassArg) {
    match arg
    case Str(s) => s != ""
    case Bool(b) => b
    case Undefined => false
  }

  /** How `join` renders an argument that passed the filter. */
  function Render(arg: ClassArg): string {
    match arg
    case Str(s) => s
    case Bool(b) => if b then "true" else "false"
    case Undefined => "undefined"
  }

  /** `classes.filter(Boolean).join(' ')`. */
  function Cn(classes: seq<ClassArg>): string {
    JoinSpace(Map(Filter(classes, Truthy), Render))
  }

  /** A falsy argument anywhere can be dropped without changing the result. */
  lemma CnDropsFalsy(before: seq<ClassArg>, arg: ClassArg, after: seq<ClassArg>)
    requires !Truthy(arg)
    ensures Cn(before + [arg] + after) == Cn(before + after)
  {
    var kept := Filter(before + [arg] + after, Truthy);
    assert kept == Filter(before + after, Truthy) by {
      FilterNonePass([arg], Truthy);
      FilterAppend(before, [arg], Truthy);
      FilterAppend(before + [arg], after, Truthy);
      FilterAppend(before, after, Truthy);
    }
  }

  /** No truthy argument gives the empty string. */
  lemma CnOfFalsy(classes: seq<ClassArg>)
    requires forall i :: 0 <= i < |classes| ==> !Truthy(classes[i])
    ensures Cn(classes) == ""
  {
    FilterNonePass(classes, Truthy);
  }

  /** Reading the result back as a class list gives the kept arguments, once
      each, in their original order, when each is a single class name. */
  lemma CnTokens(classes: seq<ClassArg>)
    requires forall i :: 0 <= i < |classes| ==> NoSpace(Render(classes[i]))
    ensures Tokens(Cn(classes)) == Map(Filter(classes, Truthy), Render)
  {
    var kept := Filter(classes, Truthy);
    var parts := Map(kept, Render);
    forall i | 0 <= i < |parts| ensures NoSpace(parts[i]) && parts[i] != "" {
      assert kept[i] in kept;
      var j :| 0 <= j < |classes| && classes[j] == kept[i];
    }
    TokensOfJoin(parts);
    NonEmptyOfNonEmpty(parts);
  }

  lemma {:induction false} NonEmptyOfNonEmpty(parts: seq<string>)
    requires forall i :: 0 <= i < |parts| ==> parts[i] != ""
    ensures NonEmpty(parts) == parts
    decreases |parts|
  {
    if parts != [] {
      NonEmptyOfNonEmpty(parts[1..]);
    }
  }

  const BaseClass := "flex-1 transition-all duration-200"

  /** The class of `main`. */
  function MainClass(sidebarOpen: bool): string {
    Cn([Str(BaseClass), Str(if sidebarOpen then "md:ml-64" else "")])
  }

  /** `cn(a, b)` for two strings, the first non-empty. */
  lemma CnOfTwo(a: string, b: string)
    requires a != ""
    ensures Cn([Str(a), Str(b)]) == if b == "" then a else a + " " + b
  {
    var args := [Str(a), Str(b)];
    assert args[1..] == [Str(b)];
    assert Filter(args, Truthy) == [Str(a)] + Filter([Str(b)], Truthy);
    assert Filter([Str(b)], Truthy) == if b == "" then [] else [Str(b)] by {
      assert [Str(b)][1..] == [];
    }
    var parts := Map(Filter(args, Truthy), Render);
    if b == "" {
      assert parts == [a];
    } else {
      assert parts == [a, b];
      assert parts[1..] == [b];
      assert JoinSpace(parts) == a + " " + JoinSpace([b]);
    }
  }

  /** Four space-free words joined as `cn` joins them read back as those words. */
  lemma TokensOfThree(x: string, y: string, z: string)
    requires NoSpace(x) && NoSpace(y) && NoSpace(z)
    requires x != "" && y != "" && z != ""
    ensures Tokens(x + " " + y + " " + z) == [x, y, z]
  {
    var tail := y + " " + z;
    assert x + " " + y + " " + z == x + " " + tail;
    TokensOfWord(y);
    TokensOfWord(z);
    TokensAround(y, z);
    assert Tokens(tail) == [y, z];
    TokensOfWord(x);
    TokensAround(x, tail);
  }

  lemma TokensOfFour(x: string, y: string, z: string, w: string)
    requires NoSpace(x) && NoSpace(y) && NoSpace(z) && NoSpace(w)
    requires x != "" && y != "" && z != "" && w != ""
    ensures Tokens(x + " " + y + " " + z + " " + w) == [x, y, z, w]
  {
    TokensOfThree(x, y, z);
    TokensAround(x + " " + y + " " + z, w);
    TokensOfWord(w);
  }

  lemma MainClassText(sidebarOpen: bool)
    ensures MainClass(sidebarOpen) == if sidebarOpen then BaseClass + " " + "md:ml-64" else BaseClass
  {
    CnOfTwo(BaseClass, if sidebarOpen then "md:ml-64" else "");
  }

  lemma ClosedClassTokens()
    ensures Tokens(BaseClass) == ["flex-1", "transition-all", "duration-200"]
  {
    assert BaseClass == "flex-1" + " " + "transition-all" + " " + "duration-200";
    TokensOfThree("flex-1", "transition-all", "duration-200");
  }

  lemma OpenClassTokens()
    ensures Tokens(BaseClass + " " + "md:ml-64") == ["flex-1", "transition-all", "duration-200", "md:ml-64"]
  {
    assert BaseClass == "flex-1" + " " + "transition-all" + " " + "duration-200";
    TokensOfFour("flex-1", "transition-all", "duration-200", "md:ml-64");
  }

  lemma OffsetNotBase()
    ensures "md:ml-64" !in ["flex-1", "transition-all", "duration-200"]
  {
  }

  /** `main` carries the `md:ml-64` class exactly when the sidebar is open;
      its other classes are fixed. */
  lemma MainClassTokens(sidebarOpen: bool)
    ensures Tokens(MainClass(sidebarOpen)) ==
      ["flex-1", "transition-all", "duration-200"] + (if sidebarOpen then ["md:ml-64"] else [])
    ensures "md:ml-64" in Tokens(MainClass(sidebarOpen)) <==> sidebarOpen
  {
    MainClassText(sidebarOpen);
    if sidebarOpen {
      OpenClassTokens();
      assert Tokens(MainClass(sidebarOpen))[3] == "md:ml-64";
    } else {
      ClosedClassTokens();
      OffsetNotBase();
    }
  }
}
