/**
  How the text button reads its source text: the label lines drawn on the
  key (`loadButtonContent`), and the `name` a remote text request carries
  (`loadTextContent`).
 */
module Labels {
  import opened JsString
  import opened Protocol

  /** The marker of a line the key does not show. */
  const ContentMarker := "button content:"

  /** A line survives when it is not blank and does not start with the
      marker; the marker test is on the line as written, before trimming. */
  predicate KeepLine(line: string) {
    Trim(line) != [] && !StartsWith(line, ContentMarker)
  }

  /** `filter(keep)` then `map(f)`, for any line test and line map. */
  function FilterMap(pieces: seq<string>, keep: string -> bool, f: string -> string): (r: seq<string>)
    ensures |r| <= |pieces|
  {
    if pieces == [] then []
    else (if keep(pieces[0]) then [f(pieces[0])] else []) + FilterMap(pieces[1..], keep, f)
  }

  /** Every output is the image of a kept piece. */
  lemma {:induction false} FilterMapSound(pieces: seq<string>, keep: string -> bool, f: string -> string, x: string)
    requires x in FilterMap(pieces, keep, f)
    ensures exists j :: 0 <= j < |pieces| && keep(pieces[j]) && x == f(pieces[j])
  {
    if !(keep(pieces[0]) && x == f(pieces[0])) {
      FilterMapSound(pieces[1..], keep, f, x);
      var j :| 0 <= j < |pieces[1..]| && keep(pieces[1..][j]) && x == f(pieces[1..][j]);
      assert pieces[j + 1] == pieces[1..][j];
    }
  }

  /** Every kept piece contributes its image. */
  lemma {:induction false} FilterMapComplete(pieces: seq<string>, keep: string -> bool, f: string -> string, j: nat)
    requires j < |pieces| && keep(pieces[j])
    ensures f(pieces[j]) in FilterMap(pieces, keep, f)
  {
    if j > 0 {
      assert pieces[1..][j - 1] == pieces[j];
      FilterMapComplete(pieces[1..], keep, f, j - 1);
    }
  }

  /** Filtering and mapping work piece by piece, so the outputs keep the
      order of the pieces they come from. */
  lemma {:induction false} FilterMapAppend(a: seq<string>, b: seq<string>, keep: string -> bool, f: string -> string)
    ensures FilterMap(a + b, keep, f) == FilterMap(a, keep, f) + FilterMap(b, keep, f)
  {
    if a == [] {
      assert a + b == b;
    } else {
      var head := if keep(a[0]) then [f(a[0])] else [];
      assert (a + b)[0] == a[0];
      assert (a + b)[1..] == a[1..] + b;
      assert FilterMap(a + b, keep, f) == head + FilterMap(a[1..] + b, keep, f);
      FilterMapAppend(a[1..], b, keep, f);
      assert FilterMap(a, keep, f) == head + FilterMap(a[1..], keep, f);
    }
  }

  /** The label lines of a list of pieces: `filter(KeepLine)` then
      `map(trim)`. Every label is non-empty and trimmed. */
  function LabelsOf(pieces: seq<string>): (r: seq<string>)
    ensures |r| <= |pieces|
    ensures forall i :: 0 <= i < |r| ==> r[i] != [] && IsTrimmed(r[i])
  {
    var r := FilterMap(pieces, KeepLine, Trim);
    assert forall i :: 0 <= i < |r| ==> r[i] != [] && IsTrimmed(r[i]) by {
      forall i | 0 <= i < |r| ensures r[i] != [] && IsTrimmed(r[i]) {
        FilterMapSound(pieces, KeepLine, Trim, r[i]);
      }
    }
    r
  }

  /** The labels of a text: `text.split('\n')`, filtered, trimmed. */
  function ParseLabels(text: string): (r: seq<string>)
    ensures forall i :: 0 <= i < |r| ==> r[i] != [] && IsTrimmed(r[i]) && '\n' !in r[i]
  {
    var pieces := Split(text, '\n');
    var r := LabelsOf(pieces);
    assert forall i :: 0 <= i < |r| ==> '\n' !in r[i] by {
      forall i | 0 <= i < |r| ensures '\n' !in r[i] {
        FilterMapSound(pieces, KeepLine, Trim, r[i]);
        var j :| 0 <= j < |pieces| && KeepLine(pieces[j]) && r[i] == Trim(pieces[j]);
        if '\n' in r[i] {
          TrimKeepsCharacters(pieces[j], '\n');
        }
      }
    }
    r
  }

  /** There are never more labels than lines, and a label is exactly the
      trimmed form of a kept line: both directions. */
  lemma ParseLabelsSpec(text: string)
    ensures |ParseLabels(text)| <= |Split(text, '\n')|
    ensures forall x :: x in ParseLabels(text) <==>
      exists j :: 0 <= j < |Split(text, '\n')| && KeepLine(Split(text, '\n')[j]) && x == Trim(Split(text, '\n')[j])
  {
    var pieces := Split(text, '\n');
    forall x | x in ParseLabels(text)
      ensures exists j :: 0 <= j < |pieces| && KeepLine(pieces[j]) && x == Trim(pieces[j])
    {
      FilterMapSound(pieces, KeepLine, Trim, x);
    }
    forall x | exists j :: 0 <= j < |pieces| && KeepLine(pieces[j]) && x == Trim(pieces[j])
      ensures x in ParseLabels(text)
    {
      var j :| 0 <= j < |pieces| && KeepLine(pieces[j]) && x == Trim(pieces[j]);
      FilterMapComplete(pieces, KeepLine, Trim, j);
    }
  }

  /** Lines joined by a newline come back as their labels in order: blank
      lines and marker lines vanish, surrounding spaces go. */
  lemma {:induction false} ParseLabelsOfLines(lines: seq<string>)
    requires |lines| >= 1
    requires forall i :: 0 <= i < |lines| ==> '\n' !in lines[i]
    ensures ParseLabels(Join(lines, '\n')) == LabelsOf(lines)
  {
    SplitJoin(lines, '\n');
  }

  /** The text `Go`, `Rust`, a blank line, `C++` shows three labels. */
  lemma ParseLabelsExample()
    ensures ParseLabels("Go\nRust\n\nC++") == ["Go", "Rust", "C++"]
  {
    var lines := ["Go", "Rust", "", "C++"];
    ExampleJoin();
    assert forall i :: 0 <= i < |lines| ==> '\n' !in lines[i];
    ParseLabelsOfLines(lines);
    ExampleLabels();
  }

  lemma ExampleJoin()
    ensures Join(["Go", "Rust", "", "C++"], '\n') == "Go\nRust\n\nC++"
  {
    var lines := ["Go", "Rust", "", "C++"];
    assert lines[1..] == ["Rust", "", "C++"];
    assert ["Rust", "", "C++"][1..] == ["", "C++"];
    assert ["", "C++"][1..] == ["C++"];
  }

  lemma ExampleLabels()
    ensures LabelsOf(["Go", "Rust", "", "C++"]) == ["Go", "Rust", "C++"]
  {
    ShortLabelsAroundBlank("Go", "Rust", "C++");
  }

  /** Three short trimmed lines around a blank one give their three labels
      in order. */
  lemma ShortLabelsAroundBlank(a: string, b: string, d: string)
    requires a != [] && IsTrimmed(a) && |a| < |ContentMarker|
    requires b != [] && IsTrimmed(b) && |b| < |ContentMarker|
    requires d != [] && IsTrimmed(d) && |d| < |ContentMarker|
    ensures LabelsOf([a, b, "", d]) == [a, b, d]
  {
    KeptAsIs(a);
    KeptAsIs(b);
    KeptAsIs(d);
    assert !KeepLine("");
    FilterMapAppend([a], [b, "", d], KeepLine, Trim);
    FilterMapAppend([b], ["", d], KeepLine, Trim);
    FilterMapAppend([""], [d], KeepLine, Trim);
    assert [a, b, "", d] == [a] + ([b] + ([""] + [d]));
  }

  /** A short trimmed line is shown as written. */
  lemma KeptAsIs(line: string)
    requires line != [] && IsTrimmed(line) && |line| < |ContentMarker|
    ensures KeepLine(line) && Trim(line) == line && LabelsOf([line]) == [line]
  {
    TrimOfTrimmed(line);
  }

  // ---------------------------------------------------------------------
  // The `name` of a remote text request
  // ---------------------------------------------------------------------

  predicate EndsWith(s: string, suffix: string) {
    |suffix| <= |s| && s[|s| - |suffix|..] == suffix
  }

  /** `p.replace(/\.md$/, '')`: one `.md` at the very end is removed. */
  function StripMdSuffix(p: string): (r: string)
    ensures EndsWith(p, ".md") ==> r + ".md" == p
    ensures !EndsWith(p, ".md") ==> r == p
  {
    if EndsWith(p, ".md") then p[..|p| - 3] else p
  }

  /** The `name` field sent with a remote text request for the file path
      `mdFilePath`: absent when the path is blank or nothing is left after
      removing `.md` and trimming. */
  function RequestName(mdFilePath: string): (r: Option<string>)
    ensures r.Some? ==> r.value != [] && IsTrimmed(r.value)
  {
    if Trim(mdFilePath) == [] then None
    else
      var name := Trim(StripMdSuffix(mdFilePath));
      if name != [] then Some(name) else None
  }

  /** The outer blank-path test never decides anything: a blank path has
      no `.md` suffix, so the inner test alone already rejects it. */
  lemma RequestNameGuardRedundant(mdFilePath: string)
    ensures RequestName(mdFilePath) ==
      (var name := Trim(StripMdSuffix(mdFilePath)); if name != [] then Some(name) else None)
  {
    if Trim(mdFilePath) == [] {
      TrimEmptyIff(mdFilePath);
      assert mdFilePath == [] || IsWhitespace(mdFilePath[|mdFilePath| - 1]);
      assert !EndsWith(mdFilePath, ".md");
    }
  }

  /** A file `<name>.md` is requested as `name`, for any non-blank
      trimmed `name`. */
  lemma RequestNameOfMdFile(name: string)
    requires name != [] && IsTrimmed(name)
    ensures RequestName(name + ".md") == Some(name)
  {
    var p := name + ".md";
    assert EndsWith(p, ".md");
    assert p[..|p| - 3] == name;
    TrimOfTrimmed(name);
    TrimEmptyIff(p);
    assert !IsWhitespace(p[0]);
  }

  /** A path whose `.md` is followed by a space keeps its suffix: the
      suffix is removed before trimming. */
  lemma RequestNameTrailingSpace()
    ensures RequestName("notes.md ") == Some("notes.md")
  {
    var p := "notes.md ";
    assert !EndsWith(p, ".md") by { assert p[|p| - 1] == ' '; }
    TrimStartOfTrimmed(p);
    assert p[..|p| - 1] == "notes.md";
    TrimEndOfTrimmed("notes.md");
    assert TrimEnd(p) == "notes.md";
  }
}
