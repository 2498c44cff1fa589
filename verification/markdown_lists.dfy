/**
 * The list-grouping pass that turns the report's lines into HTML fragments
 * (app/main.py, inside `analyze_sector`): lines whose stripped form starts with
 * "- " become `<li>` items, and every maximal run of them is wrapped in one
 * `<ul>` ... `</ul>`; a blank line becomes `<br>` and any other line a paragraph.
 *
 * The pass is a two-state machine (inside a list or not). `GroupFrom` is its
 * recursive reference definition and `GroupLists` the loop the source runs.
 */
module MarkdownLists {
  import Basics
  import Text

  /** No line of `lines` holds a line break. */
  predicate NoBreaks(lines: seq<string>) {
    forall k :: 0 <= k < |lines| ==> '\n' !in lines[k]
  }

  lemma NoBreaksAppend(a: seq<string>, b: seq<string>)
    requires NoBreaks(a) && NoBreaks(b)
    ensures NoBreaks(a + b)
  {
    forall k | 0 <= k < |a + b| ensures '\n' !in (a + b)[k] {
      if k < |a| { assert (a + b)[k] == a[k]; } else { assert (a + b)[k] == b[k - |a|]; }
    }
  }

  /** Python's `s.split('\n')`: always at least one piece, none holding a line break. */
  function Split(s: string): (r: seq<string>)
    ensures |r| >= 1
    ensures NoBreaks(r)
    decreases |s|
  {
    if |s| == 0 then [""]
    else
      var rest := Split(s[1..]);
      if s[0] == '\n' then [""] + rest
      else [[s[0]] + rest[0]] + rest[1..]
  }

  /** Putting a character in front of the first line puts it in front of the joined text. */
  lemma JoinLinesConsHead(c: char, lines: seq<string>)
    requires |lines| >= 1
    ensures Text.JoinLines([[c] + lines[0]] + lines[1..]) == [c] + Text.JoinLines(lines)
  {
    var first := [c] + lines[0];
    var moved := [first] + lines[1..];
    assert |moved| == |lines| && moved[0] == first;
    if |lines| == 1 {
      assert Text.JoinLines(moved) == first;
      assert Text.JoinLines(lines) == lines[0];
    } else {
      assert moved[1..] == lines[1..];
      var rest := Text.JoinLines(lines[1..]);
      assert Text.JoinLines(moved) == first + "\n" + rest;
      assert Text.JoinLines(lines) == lines[0] + "\n" + rest;
      Basics.AppendAssoc([c], lines[0], "\n");
      Basics.AppendAssoc([c], lines[0] + "\n", rest);
    }
  }

  /** Joining the pieces of a split gives the text back. */
  lemma {:induction false} JoinSplit(s: string)
    ensures Text.JoinLines(Split(s)) == s
    decreases |s|
  {
    if |s| > 0 {
      var rest := Split(s[1..]);
      JoinSplit(s[1..]);
      if s[0] == '\n' {
        assert ([""] + rest)[1..] == rest;
      } else {
        JoinLinesConsHead(s[0], rest);
      }
      assert s == [s[0]] + s[1..];
    }
  }

  /** A text without line breaks splits into itself alone. */
  lemma {:induction false} SplitSingle(a: string)
    requires '\n' !in a
    ensures Split(a) == [a]
    decreases |a|
  {
    if |a| > 0 {
      assert '\n' !in a[1..] by {
        forall k | 0 <= k < |a[1..]| ensures a[1..][k] != '\n' { assert a[1..][k] == a[k + 1]; }
      }
      SplitSingle(a[1..]);
      assert a == [a[0]] + a[1..];
    }
  }

  /** Splitting at the first line break peels off the first line. */
  lemma {:induction false} SplitAtBreak(a: string, b: string)
    requires '\n' !in a
    ensures Split(a + "\n" + b) == [a] + Split(b)
    decreases |a|
  {
    var s := a + "\n" + b;
    if |a| == 0 {
      assert s == "\n" + b;
      assert s[1..] == b;
    } else {
      assert '\n' !in a[1..] by {
        forall k | 0 <= k < |a[1..]| ensures a[1..][k] != '\n' { assert a[1..][k] == a[k + 1]; }
      }
      assert s[1..] == a[1..] + "\n" + b;
      SplitAtBreak(a[1..], b);
      assert a == [a[0]] + a[1..];
    }
  }

  /** Splitting the joined lines gives the lines back, when none holds a line break. */
  lemma {:induction false} SplitJoin(lines: seq<string>)
    requires |lines| >= 1
    requires NoBreaks(lines)
    ensures Split(Text.JoinLines(lines)) == lines
    decreases |lines|
  {
    if |lines| == 1 {
      SplitSingle(lines[0]);
    } else {
      SplitJoin(lines[1..]);
      SplitAtBreak(lines[0], Text.JoinLines(lines[1..]));
      assert lines == [lines[0]] + lines[1..];
    }
  }

  /** A list line: once its surrounding whitespace is removed, it starts with a dash and a space. */
  predicate IsListLine(line: string) {
    "- " <= Text.Strip(line)
  }

  /** The item text: the line without its first two characters, then stripped. It is cut from the
      line as written, not from its stripped form. */
  function ItemText(line: string): string {
    Text.Strip(if |line| >= 2 then line[2..] else "")
  }

  /** What one line becomes, leaving aside the list brackets around it. */
  function RenderLine(line: string): string {
    if IsListLine(line) then "<li>" + ItemText(line) + "</li>"
    else if Text.Strip(line) != "" then "<p>" + line + "</p>"
    else "<br>"
  }

  /** The bracket a line is preceded by: `<ul>` at the first item of a run, `</ul>` at the
      first line after one, nothing otherwise. */
  function Bracket(line: string, inList: bool): seq<string> {
    if IsListLine(line) then (if inList then [] else ["<ul>"])
    else (if inList then ["</ul>"] else [])
  }

  /** The list-grouping pass from state `inList` over `lines`, closing an open list at the end. */
  function GroupFrom(lines: seq<string>, inList: bool): seq<string>
    decreases |lines|
  {
    if |lines| == 0 then (if inList then ["</ul>"] else [])
    else Bracket(lines[0], inList) + [RenderLine(lines[0])] + GroupFrom(lines[1..], IsListLine(lines[0]))
  }

  /** Rendering a line introduces no line break. */
  lemma RenderLineNoBreak(line: string)
    requires '\n' !in line
    ensures '\n' !in RenderLine(line)
  {
    if IsListLine(line) {
      ItemNoBreak(line);
      NoBreakConcat("<li>", ItemText(line), "</li>");
    } else if Text.Strip(line) != "" {
      NoBreakConcat("<p>", line, "</p>");
    }
  }

  lemma ItemNoBreak(line: string)
    requires '\n' !in line
    ensures '\n' !in ItemText(line)
  {
    var rest := if |line| >= 2 then line[2..] else "";
    assert '\n' !in rest by {
      forall k | 0 <= k < |rest| ensures rest[k] != '\n' { assert rest[k] == line[k + 2]; }
    }
    Text.StripKeeps(rest, '\n');
  }

  lemma NoBreakConcat(a: string, b: string, c: string)
    requires '\n' !in a && '\n' !in b && '\n' !in c
    ensures '\n' !in a + b + c
  {
  }

  /** The pass introduces no line break: every output line is a bracket or one line's rendering. */
  lemma {:induction false} GroupNoBreaks(lines: seq<string>, inList: bool)
    requires NoBreaks(lines)
    ensures NoBreaks(GroupFrom(lines, inList))
    decreases |lines|
  {
    if |lines| > 0 {
      var line := lines[0];
      var bracket := Bracket(line, inList);
      assert NoBreaks(lines[1..]) by {
        forall k | 0 <= k < |lines[1..]| ensures '\n' !in lines[1..][k] { assert lines[1..][k] == lines[k + 1]; }
      }
      RenderLineNoBreak(line);
      GroupNoBreaks(lines[1..], IsListLine(line));
      assert NoBreaks(bracket);
      assert NoBreaks([RenderLine(line)]);
      NoBreaksAppend(bracket, [RenderLine(line)]);
      NoBreaksAppend(bracket + [RenderLine(line)], GroupFrom(lines[1..], IsListLine(line)));
    }
  }

  /** The joined HTML lines split back into the lines the pass produced: the grouping of a
      split text is what a reader of the joined page sees, line by line. */
  lemma GroupedSplitsBack(text: string)
    ensures var out := GroupFrom(Split(text), false);
      |out| >= 1 && Split(Text.JoinLines(out)) == out
  {
    var lines := Split(text);
    GroupNoBreaks(lines, false);
    GroupStep(lines, 0, false);
    assert lines[0..] == lines;
    SplitJoin(GroupFrom(lines, false));
  }

  /** One step of the pass over a suffix of the lines. */
  lemma GroupStep(lines: seq<string>, i: nat, inList: bool)
    requires i < |lines|
    ensures GroupFrom(lines[i..], inList)
         == Bracket(lines[i], inList) + [RenderLine(lines[i])] + GroupFrom(lines[i + 1..], IsListLine(lines[i]))
  {
    assert lines[i..][1..] == lines[i + 1..];
  }

  /** The body of the source's loop: emit the bracket the line calls for, then the line. */
  method ProcessLine(processed: seq<string>, inList: bool, line: string) returns (out: seq<string>, nowInList: bool)
    ensures out == processed + Bracket(line, inList) + [RenderLine(line)]
    ensures nowInList == IsListLine(line)
  {
    out := processed;
    nowInList := inList;
    if IsListLine(line) {
      if !nowInList {
        out := out + ["<ul>"];
        nowInList := true;
      }
      out := out + ["<li>" + ItemText(line) + "</li>"];
    } else {
      if nowInList {
        out := out + ["</ul>"];
        nowInList := false;
      }
      if Text.Strip(line) != "" {
        out := out + ["<p>" + line + "</p>"];
      } else {
        out := out + ["<br>"];
      }
    }
  }

  /** The loop of the source: walk the lines once, opening a list at the first item of a run
      and closing it at the first line after it, and at the end if the report ends in a list. */
  method GroupLists(lines: seq<string>) returns (processed: seq<string>)
    ensures processed == GroupFrom(lines, false)
  {
    processed := [];
    var inList := false;
    var i := 0;
    while i < |lines|
      invariant 0 <= i <= |lines|
      invariant processed + GroupFrom(lines[i..], inList) == GroupFrom(lines, false)
    {
      ghost var step := Bracket(lines[i], inList) + [RenderLine(lines[i])];
      GroupStep(lines, i, inList);
      Basics.AppendAssoc(processed, step, GroupFrom(lines[i + 1..], IsListLine(lines[i])));
      Basics.AppendAssoc(processed, Bracket(lines[i], inList), [RenderLine(lines[i])]);
      processed, inList := ProcessLine(processed, inList, lines[i]);
      i := i + 1;
    }
    assert lines[i..] == [];
    if inList {
      processed := processed + ["</ul>"];
    }
  }

  /** An `<li>` item of the output. */
  predicate IsItem(fragment: string) {
    "<li>" <= fragment
  }

  /** Scanning the fragments from state `open`: `<ul>` only when closed, `</ul>` only when open,
      items only inside a list, everything else only outside one, and closed at the end. */
  predicate WellNested(out: seq<string>, open: bool)
    decreases |out|
  {
    if |out| == 0 then !open
    else if out[0] == "<ul>" then !open && WellNested(out[1..], true)
    else if out[0] == "</ul>" then open && WellNested(out[1..], false)
    else if IsItem(out[0]) then open && WellNested(out[1..], true)
    else !open && WellNested(out[1..], false)
  }

  /** What a non-list line renders to is neither a bracket nor an item. */
  lemma PlainLineIsPlain(line: string)
    requires !IsListLine(line)
    ensures RenderLine(line) != "<ul>" && RenderLine(line) != "</ul>" && !IsItem(RenderLine(line))
  {
    if Text.Strip(line) != "" {
      Paragraph(line);
    }
  }

  lemma Paragraph(x: string)
    ensures var r := "<p>" + x + "</p>"; r != "<ul>" && r != "</ul>" && !IsItem(r)
  {
    var r := "<p>" + x + "</p>";
    assert r[1] == 'p';
  }

  lemma Item(x: string)
    ensures var r := "<li>" + x + "</li>"; IsItem(r) && r != "<ul>" && r != "</ul>"
  {
    var r := "<li>" + x + "</li>";
    assert r[..4] == "<li>";
    assert r[1] == 'l';
  }

  /** What a list line renders to is an item and not a bracket. */
  lemma ListLineIsItem(line: string)
    requires IsListLine(line)
    ensures IsItem(RenderLine(line)) && RenderLine(line) != "<ul>" && RenderLine(line) != "</ul>"
  {
    Item(ItemText(line));
  }

  /** The brackets the pass emits balance: lists open only when closed, close only when open,
      hold every item, and none is left open. */
  lemma {:induction false} GroupWellNested(lines: seq<string>, inList: bool)
    ensures WellNested(GroupFrom(lines, inList), inList)
    decreases |lines|
  {
    if |lines| > 0 {
      var line := lines[0];
      var bracket := Bracket(line, inList);
      var tail := GroupFrom(lines[1..], IsListLine(line));
      var rest := [RenderLine(line)] + tail;
      GroupWellNested(lines[1..], IsListLine(line));
      Basics.AppendAssoc(bracket, [RenderLine(line)], tail);
      if IsListLine(line) { ListLineIsItem(line); } else { PlainLineIsPlain(line); }
      assert rest[1..] == tail;
      assert WellNested(rest, IsListLine(line));
      if bracket == [] {
        assert bracket + rest == rest;
      } else {
        assert (bracket + rest)[1..] == rest;
      }
    }
  }

  /** The number of maximal runs of list lines, counting a run that continues an open list
      (`previous` is whether the line before was a list line) as already opened. */
  function RunStarts(lines: seq<string>, previous: bool): nat
    decreases |lines|
  {
    if |lines| == 0 then 0
    else (if IsListLine(lines[0]) && !previous then 1 else 0) + RunStarts(lines[1..], IsListLine(lines[0]))
  }

  /** Every maximal run of list lines gets exactly one `<ul>`, and so exactly one `</ul>`. */
  lemma {:induction false} OneBracketPerRun(lines: seq<string>, inList: bool)
    ensures multiset(GroupFrom(lines, inList))["<ul>"] == RunStarts(lines, inList)
    ensures multiset(GroupFrom(lines, inList))["</ul>"] == RunStarts(lines, inList) + (if inList then 1 else 0)
    decreases |lines|
  {
    if |lines| > 0 {
      var line := lines[0];
      OneBracketPerRun(lines[1..], IsListLine(line));
      if IsListLine(line) {
        ListLineIsItem(line);
      } else {
        PlainLineIsPlain(line);
      }
    }
  }

  /** The fragments with the list brackets taken out. */
  function Unbracketed(out: seq<string>): (r: seq<string>)
    ensures |r| <= |out|
    decreases |out|
  {
    if |out| == 0 then []
    else if out[0] == "<ul>" || out[0] == "</ul>" then Unbracketed(out[1..])
    else [out[0]] + Unbracketed(out[1..])
  }

  lemma {:induction false} UnbracketedAppend(a: seq<string>, b: seq<string>)
    ensures Unbracketed(a + b) == Unbracketed(a) + Unbracketed(b)
    decreases |a|
  {
    if |a| > 0 {
      assert (a + b)[1..] == a[1..] + b;
      UnbracketedAppend(a[1..], b);
    } else {
      assert a + b == b;
    }
  }

  /** Apart from the brackets, the output is each line's rendering, one for one and in order. */
  lemma {:induction false} GroupRendersEachLine(lines: seq<string>, inList: bool)
    ensures Unbracketed(GroupFrom(lines, inList)) == Basics.Map(RenderLine, lines)
    decreases |lines|
  {
    if |lines| == 0 {
      assert Unbracketed(GroupFrom(lines, inList)) == [];
    } else {
      var line := lines[0];
      var rendered := RenderLine(line);
      var tail := GroupFrom(lines[1..], IsListLine(line));
      GroupRendersEachLine(lines[1..], IsListLine(line));
      var bracket := Bracket(line, inList);
      Basics.AppendAssoc(bracket, [rendered], tail);
      UnbracketedAppend(bracket, [rendered] + tail);
      UnbracketedAppend([rendered], tail);
      if IsListLine(line) { ListLineIsItem(line); } else { PlainLineIsPlain(line); }
      assert Unbracketed(bracket) == [];
      assert Unbracketed([rendered]) == [rendered];
      assert Unbracketed(GroupFrom(lines, inList)) == [rendered] + Basics.Map(RenderLine, lines[1..]);
      Basics.MapCons(RenderLine, lines);
    }
  }

  /** An indented item keeps its dash: the item text is cut two characters into the line as
      written, so "  - Growth" is listed as "- Growth". */
  lemma IndentedItemKeepsDash()
    ensures IsListLine("  - Growth")
    ensures RenderLine("  - Growth") == "<li>" + "- Growth" + "</li>"
  {
    var line := "  - Growth";
    assert line == "  " + "- Growth";
    Text.StripPadded("  ", "- Growth");
    Text.StripTrimmed("- Growth");
    assert line[2..] == "- Growth";
  }
}
