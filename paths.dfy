/** Filesystem paths as pathlib builds them: an absolute or relative path
    made of components, extended with the `/` operator. */
module Paths {
  import opened Strings

  datatype Path = Path(absolute: bool, parts: seq<string>)

  /** A piece pathlib keeps as a component of its own. */
  predicate IsComponent(c: string)
  {
    c != "" && c != "." && '/' !in c
  }

  /** The pieces of a split that pathlib keeps: empty pieces and "." vanish. */
  function Keep(pieces: seq<string>): (cs: seq<string>)
    ensures |cs| <= |pieces|
    ensures forall i :: 0 <= i < |cs| ==> cs[i] in pieces && cs[i] != "" && cs[i] != "."
  {
    if pieces == [] then []
    else if pieces[0] == "" || pieces[0] == "." then Keep(pieces[1..])
    else [pieces[0]] + Keep(pieces[1..])
  }

  /** The components pathlib reads from a text. */
  function Components(s: string): (cs: seq<string>)
    ensures forall i :: 0 <= i < |cs| ==> IsComponent(cs[i])
  {
    Keep(Split(s, '/'))
  }

  /** `Path(s)`. */
  function Parse(s: string): Path
  {
    Path(|s| > 0 && s[0] == '/', Components(s))
  }

  /** `p / name`: an absolute name replaces the path, any other name adds its
      components. */
  function JoinPath(p: Path, name: string): (r: Path)
    ensures (|name| == 0 || name[0] != '/') ==> r.absolute == p.absolute && p.parts <= r.parts
  {
    if |name| > 0 && name[0] == '/' then Parse(name)
    else Path(p.absolute, p.parts + Components(name))
  }

  /** `str(p)`. */
  function ToString(p: Path): string
  {
    if p.absolute then "/" + Join(p.parts, '/')
    else if p.parts == [] then "."
    else Join(p.parts, '/')
  }

  /** Plain components are all kept when a path is parsed. */
  lemma KeepComponents(cs: seq<string>)
    requires forall i :: 0 <= i < |cs| ==> IsComponent(cs[i])
    ensures Keep(cs) == cs
  {
  }

  /** Joining a plain component appends exactly that component. */
  lemma JoinComponent(p: Path, name: string)
    requires IsComponent(name)
    ensures JoinPath(p, name) == Path(p.absolute, p.parts + [name])
  {
    SplitWithoutSeparator(name, '/');
  }

  lemma {:induction false} SplitJoined(parts: seq<string>)
    requires |parts| >= 1
    requires forall i :: 0 <= i < |parts| ==> '/' !in parts[i]
    ensures Split(Join(parts, '/'), '/') == parts
  {
    if |parts| == 1 {
      SplitWithoutSeparator(parts[0], '/');
    } else {
      SplitJoined(parts[1..]);
      SplitAfterSeparator(parts[0], '/', Join(parts[1..], '/'));
      assert [parts[0]] + parts[1..] == parts;
    }
  }

  /** Rendering a path built from plain components and reading it back gives
      the same path. */
  lemma ParseToString(p: Path)
    requires forall i :: 0 <= i < |p.parts| ==> IsComponent(p.parts[i])
    ensures Parse(ToString(p)) == p
  {
    KeepComponents(p.parts);
    if p.absolute {
      if p.parts == [] {
        assert ToString(p) == "/";
        assert "/"[1..] == [];
        assert Split([], '/') == [""];
        assert Split("/", '/') == ["", ""];
        assert Keep([""]) == [];
        assert Keep(["", ""]) == [];
      } else {
        SplitJoined(p.parts);
        SplitAfterSeparator("", '/', Join(p.parts, '/'));
        assert "/" + Join(p.parts, '/') == "" + ['/'] + Join(p.parts, '/');
      }
    } else if p.parts == [] {
      assert "."[1..] == [];
      assert Split([], '/') == [""];
      assert ['.'] + "" == ".";
      assert Split(".", '/') == ["."];
      assert Keep(["."]) == [];
    } else {
      SplitJoined(p.parts);
      assert p.parts[0][0] != '/';
    }
  }
}
