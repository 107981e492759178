/** The prompt's framing (internal/dispatch/prompt.go): user-derived fields sit between fence
    markers, and no field can forge one. */
module Prompt {
  import opened Text

  // ---- escaping ----

  function RunLength(s: string): (n: nat)
    ensures n <= |s| && forall i | 0 <= i < n :: s[i] == '<'
    ensures n < |s| ==> s[n] != '<'
  {
    if s == "" || s[0] != '<' then 0 else 1 + RunLength(s[1..])
  }

  function Repeated(s: string, n: nat): string {
    if n == 0 then "" else s + Repeated(s, n - 1)
  }

  /** Rewrites every run of two or more "<"; a single one is left alone. */
  function FenceEscape(s: string): string
    decreases |s|
  {
    if s == "" then ""
    else
      var run := RunLength(s);
      if run == 0 then [s[0]] + FenceEscape(s[1..])
      else (if run == 1 then "<" else Repeated("<\\", run)) + FenceEscape(s[run..])
  }

  /** "<<" occurs nowhere. */
  predicate NoFence(s: string) {
    forall i | 0 <= i < |s| - 1 :: !(s[i] == '<' && s[i + 1] == '<')
  }

  lemma NoFenceConcat(a: string, b: string)
    requires NoFence(a) && NoFence(b)
    requires a == "" || b == "" || a[|a| - 1] != '<' || b[0] != '<'
    ensures NoFence(a + b)
  {
  }

  lemma {:induction false} RepeatedHasNoFence(n: nat)
    ensures NoFence(Repeated("<\\", n))
    ensures n > 0 ==> |Repeated("<\\", n)| >= 2 && Repeated("<\\", n)[|Repeated("<\\", n)| - 1] == '\\'
  {
    if n > 0 {
      RepeatedHasNoFence(n - 1);
      NoFenceConcat("<\\", Repeated("<\\", n - 1));
    }
  }

  /** The output of the escape never contains "<<", and it starts with "<" only if the input does. */
  lemma {:induction false} EscapeHasNoFence(s: string)
    ensures NoFence(FenceEscape(s))
    ensures FenceEscape(s) != "" ==> s != "" && (FenceEscape(s)[0] == '<' <==> s[0] == '<')
    decreases |s|
  {
    if s != "" {
      var run := RunLength(s);
      if run == 0 {
        EscapeHasNoFence(s[1..]);
        NoFenceConcat([s[0]], FenceEscape(s[1..]));
      } else {
        EscapeHasNoFence(s[run..]);
        RepeatedHasNoFence(run);
        NoFenceConcat(if run == 1 then "<" else Repeated("<\\", run), FenceEscape(s[run..]));
      }
    }
  }

  /** The escape is the identity exactly on the texts without "<<". */
  lemma {:induction false} EscapeIdentity(s: string)
    ensures FenceEscape(s) == s <==> NoFence(s)
    decreases |s|
  {
    EscapeHasNoFence(s);
    if NoFence(s) && s != "" {
      assert RunLength(s) <= 1 by {
        assert |s| >= 2 ==> !(s[0] == '<' && s[1] == '<');
      }
      EscapeIdentity(s[1..]);
      assert s == [s[0]] + s[1..];
    }
  }

  /** A text without its backslashes. */
  function Bare(s: string): string {
    if s == "" then "" else (if s[0] == '\\' then "" else [s[0]]) + Bare(s[1..])
  }

  lemma {:induction false} BareConcat(a: string, b: string)
    ensures Bare(a + b) == Bare(a) + Bare(b)
  {
    if a == "" {
      assert a + b == b;
    } else {
      assert (a + b)[1..] == a[1..] + b;
      BareConcat(a[1..], b);
    }
  }

  lemma {:induction false} BareRun(s: string, n: nat)
    requires n <= |s| && forall i | 0 <= i < n :: s[i] == '<'
    ensures Bare(Repeated("<\\", n)) == Bare(s[..n])
  {
    if n > 0 {
      BareRun(s[1..], n - 1);
      BareConcat("<\\", Repeated("<\\", n - 1));
      assert Bare("<\\") == "<" by { assert "<\\"[1..] == "\\"; assert "\\"[1..] == ""; }
      assert s[..n][1..] == s[1..][..n - 1];
    }
  }

  /** The escape adds backslashes and changes nothing else. */
  lemma {:induction false} EscapeKeepsText(s: string)
    ensures Bare(FenceEscape(s)) == Bare(s)
    decreases |s|
  {
    if s != "" {
      var run := RunLength(s);
      if run == 0 {
        EscapeKeepsText(s[1..]);
        BareConcat([s[0]], FenceEscape(s[1..]));
        BareConcat([s[0]], s[1..]);
        assert [s[0]] + s[1..] == s;
      } else {
        EscapeKeepsText(s[run..]);
        BareRun(s, run);
        assert run == 1 ==> s[..run] == "<";
        BareConcat(if run == 1 then "<" else Repeated("<\\", run), FenceEscape(s[run..]));
        BareConcat(s[..run], s[run..]);
        assert s[..run] + s[run..] == s;
      }
    }
  }

  lemma EscapeIdempotent(s: string)
    ensures FenceEscape(FenceEscape(s)) == FenceEscape(s)
  {
    EscapeHasNoFence(s);
    EscapeIdentity(FenceEscape(s));
  }

  // ---- the prompt ----

  datatype Fields = Fields(source: string, externalId: string, origin: string, title: string, body: string)

  /** `sentinel` is the completion section, empty when no control directory is wired. */
  datatype Inputs = Inputs(
    base: string,
    sourceSpecific: string,
    triage: string,
    id: int,
    fields: Fields,
    sentinel: string)

  function Open(name: string): string {
    "<<" + name + ">>\n"
  }

  function Close(name: string): string {
    "<</" + name + ">>"
  }

  function Fenced(name: string, value: string): string {
    Open(name) + value + "\n" + Close(name)
  }

  function Header(id: int): string {
    "## Task #" + Itoa(id)
  }

  function TaskBlock(id: int, f: Fields): string {
    Join([
      Header(id),
      Fenced("source", FenceEscape(f.source)),
      Fenced("external_id", FenceEscape(f.externalId)),
      Fenced("origin", FenceEscape(f.origin)),
      Fenced("title", FenceEscape(f.title)),
      Fenced("body", FenceEscape(f.body))], "\n\n")
  }

  function Section(s: string): seq<string> {
    if s == "" then [] else [s]
  }

  function BuildPrompt(x: Inputs): string {
    Join(Section(TrimSpace(x.base)) + Section(TrimSpace(x.sourceSpecific)) + Section(TrimSpace(x.triage))
         + [TaskBlock(x.id, x.fields)] + Section(x.sentinel), "\n\n")
  }

  // ---- decoding ----

  function FirstFence(s: string): (n: nat)
    ensures n <= |s|
  {
    if |s| < 2 then |s|
    else if s[0] == '<' && s[1] == '<' then 0
    else 1 + FirstFence(s[1..])
  }

  /** A reader that knows the names of the fields and nothing about escaping: it goes to the next
      "<<", which must be the opening marker, and takes what comes before the "<<" after that,
      which must be the closing one. */
  function Decode(s: string, names: seq<string>): Option<seq<string>>
    decreases |names|
  {
    if names == [] then Some([])
    else
      match ReadField(s[FirstFence(s)..], Open(names[0]), Close(names[0]))
      case None => None
      case Some((value, rest)) =>
        match Decode(rest, names[1..])
        case None => None
        case Some(values) => Some([value] + values)
  }

  /** The value between the markers, and the text after them. */
  function ReadField(s: string, open: string, close: string): Option<(string, string)> {
    if !(open <= s) then None
    else
      var inner := s[|open|..];
      var n := FirstFence(inner);
      if n == 0 || inner[n - 1] != '\n' || !(close <= inner[n..]) then None
      else Some((inner[..n - 1], inner[n..][|close|..]))
  }

  const NAMES := ["source", "external_id", "origin", "title", "body"]

  lemma {:induction false} FirstFenceAt(a: string, b: string)
    requires NoFence(a) && (a == "" || a[|a| - 1] != '<')
    requires |b| >= 2 && b[0] == '<' && b[1] == '<'
    ensures FirstFence(a + b) == |a|
    decreases |a|
  {
    if a == "" {
      assert a + b == b;
    } else {
      assert (a + b)[1..] == a[1..] + b;
      assert |a| > 1 ==> (a + b)[0] == a[0] && (a + b)[1] == a[1] && !(a[0] == '<' && a[1] == '<');
      FirstFenceAt(a[1..], b);
    }
  }

  /** The fenced fields one after the other, each preceded by a blank line. */
  function Blocks(names: seq<string>, values: seq<string>): string
    requires |names| == |values|
  {
    if names == [] then "" else "\n\n" + Fenced(names[0], values[0]) + Blocks(names[1..], values[1..])
  }

  lemma CutBack(a: string, b: string)
    ensures (a + b)[|a|..] == b && (a + b)[..|a|] == a
  {
  }

  lemma ReadFieldBack(open: string, value: string, close: string, rest: string)
    requires NoFence(value) && |close| >= 2 && close[0] == '<' && close[1] == '<'
    ensures ReadField(open + value + "\n" + close + rest, open, close) == Some((value, rest))
  {
    var tail := close + rest;
    var inner := (value + "\n") + tail;
    assert open + value + "\n" + close + rest == open + inner;
    CutBack(open, inner);
    NoFenceConcat(value, "\n");
    FirstFenceAt(value + "\n", tail);
    CutBack(value + "\n", tail);
    CutBack(close, rest);
    assert inner[..|value|] == value && inner[|value|] == '\n';
  }

  /** One step of the reader. */
  lemma DecodeField(lead: string, names: seq<string>, value: string, rest: string)
    requires names != [] && NoFence(lead) && (lead == "" || lead[|lead| - 1] != '<') && NoFence(value)
    requires Decode(rest, names[1..]).Some?
    ensures Decode(lead + Fenced(names[0], value) + rest, names) == Some([value] + Decode(rest, names[1..]).value)
  {
    var open, close := Open(names[0]), Close(names[0]);
    var block := open + value + "\n" + close + rest;
    var s := lead + Fenced(names[0], value) + rest;
    assert s == lead + block;
    FirstFenceAt(lead, block);
    assert s[|lead|..] == block;
    ReadFieldBack(open, value, close, rest);
  }

  lemma {:induction false} DecodeBlocks(lead: string, names: seq<string>, values: seq<string>)
    requires |names| == |values| && NoFence(lead) && (lead == "" || lead[|lead| - 1] != '<')
    requires forall v | v in values :: NoFence(v)
    ensures Decode(lead + Blocks(names, values), names) == Some(values)
    decreases |names|
  {
    if names != [] {
      var rest := Blocks(names[1..], values[1..]);
      assert Decode(rest, names[1..]) == Some(values[1..]) by {
        DecodeBlocks("", names[1..], values[1..]);
        assert "" + rest == rest;
      }
      assert NoFence(lead + "\n\n") by { NoFenceConcat(lead, "\n\n"); }
      assert NoFence(values[0]) by { assert values[0] in values; }
      UnfoldBlocks(lead, names, values);
      DecodeField(lead + "\n\n", names, values[0], rest);
    }
  }

  lemma UnfoldBlocks(lead: string, names: seq<string>, values: seq<string>)
    requires |names| == |values| > 0
    ensures lead + Blocks(names, values)
      == lead + "\n\n" + Fenced(names[0], values[0]) + Blocks(names[1..], values[1..])
    ensures [values[0]] + values[1..] == values
  {
    AppendAssociates(lead, "\n\n", Fenced(names[0], values[0]), Blocks(names[1..], values[1..]));
  }

  lemma AppendAssociates(a: string, b: string, c: string, d: string)
    ensures a + (b + c + d) == a + b + c + d
  {
  }

  function Escaped(f: Fields): seq<string> {
    [FenceEscape(f.source), FenceEscape(f.externalId), FenceEscape(f.origin), FenceEscape(f.title), FenceEscape(f.body)]
  }

  lemma {:induction false} JoinIsBlocks(head: string, names: seq<string>, values: seq<string>)
    requires |names| == |values|
    ensures Join([head] + seq(|names|, i requires 0 <= i < |names| => Fenced(names[i], values[i])), "\n\n")
      == head + Blocks(names, values)
    decreases |names|
  {
    var blocks := seq(|names|, i requires 0 <= i < |names| => Fenced(names[i], values[i]));
    if names != [] {
      var more := seq(|names| - 1, i requires 0 <= i < |names| - 1 => Fenced(names[1..][i], values[1..][i]));
      assert blocks == [blocks[0]] + more;
      assert ([head] + blocks)[1..] == [blocks[0]] + more;
      JoinIsBlocks(blocks[0], names[1..], values[1..]);
      assert head + "\n\n" + (blocks[0] + Blocks(names[1..], values[1..])) == head + Blocks(names, values);
    } else {
      assert [head] + blocks == [head];
    }
  }

  lemma TaskBlockIsBlocks(id: int, f: Fields)
    ensures TaskBlock(id, f) == Header(id) + Blocks(NAMES, Escaped(f))
  {
    var values := Escaped(f);
    var blocks := seq(|NAMES|, i requires 0 <= i < |NAMES| => Fenced(NAMES[i], values[i]));
    assert [Header(id)] + blocks == [
      Header(id),
      Fenced("source", FenceEscape(f.source)),
      Fenced("external_id", FenceEscape(f.externalId)),
      Fenced("origin", FenceEscape(f.origin)),
      Fenced("title", FenceEscape(f.title)),
      Fenced("body", FenceEscape(f.body))];
    JoinIsBlocks(Header(id), NAMES, values);
  }

  lemma EscapedHaveNoFence(f: Fields)
    ensures forall v | v in Escaped(f) :: NoFence(v)
  {
    EscapeHasNoFence(f.source);
    EscapeHasNoFence(f.externalId);
    EscapeHasNoFence(f.origin);
    EscapeHasNoFence(f.title);
    EscapeHasNoFence(f.body);
  }

  lemma HeaderHasNoFence(id: int)
    ensures NoFence(Header(id)) && Header(id) != "" && Header(id)[|Header(id)| - 1] != '<'
  {
    assert forall i | 0 <= i < |Header(id)| :: Header(id)[i] != '<';
  }

  /** For arbitrary field texts the reader recovers exactly the escaped fields of the block. */
  lemma TaskBlockDecodes(id: int, f: Fields)
    ensures Decode(TaskBlock(id, f), ["source", "external_id", "origin", "title", "body"]) == Some([
      FenceEscape(f.source), FenceEscape(f.externalId), FenceEscape(f.origin), FenceEscape(f.title),
      FenceEscape(f.body)])
  {
    TaskBlockIsBlocks(id, f);
    EscapedHaveNoFence(f);
    HeaderHasNoFence(id);
    DecodeBlocks(Header(id), NAMES, Escaped(f));
  }

  /** Blocks of different escaped fields differ, so fields without "<<" are determined. */
  lemma TaskBlockDetermines(i: int, f: Fields, j: int, g: Fields)
    requires TaskBlock(i, f) == TaskBlock(j, g)
    ensures Escaped(f) == Escaped(g)
    ensures NoFence(f.body) && NoFence(g.body) ==> f.body == g.body
  {
    TaskBlockDecodes(i, f);
    TaskBlockDecodes(j, g);
    assert Escaped(f)[4] == Escaped(g)[4];
    EscapeIdentity(f.body);
    EscapeIdentity(g.body);
  }

  function Before(x: Inputs): string {
    LedAll(Section(TrimSpace(x.base)) + Section(TrimSpace(x.sourceSpecific)) + Section(TrimSpace(x.triage)))
  }

  function After(x: Inputs): string {
    if x.sentinel == "" then "" else "\n\n" + x.sentinel
  }

  /** A part and the blank line behind it, if there is one. */
  function Led(part: string): string {
    if part == "" then "" else part + "\n\n"
  }

  function LedAll(parts: seq<string>): string {
    if parts == [] then "" else Join(parts, "\n\n") + "\n\n"
  }

  lemma LedSection(parts: seq<string>, c: string)
    ensures LedAll(parts + Section(c)) == LedAll(parts) + Led(c)
  {
    if c == "" {
      assert parts + Section(c) == parts;
    } else if parts == [] {
      assert parts + Section(c) == [c];
    } else {
      JoinConcat(parts, [c], "\n\n");
    }
  }

  lemma LedParts(a: string, b: string, c: string)
    ensures LedAll(Section(a) + Section(b) + Section(c)) == Led(a) + Led(b) + Led(c)
  {
    LedSection([], a);
    assert [] + Section(a) == Section(a);
    LedSection(Section(a), b);
    LedSection(Section(a) + Section(b), c);
  }

  /** The user's fields reach the prompt only inside the task block: the text around it does not
      depend on them. */
  lemma FieldsStayInBlock(x: Inputs, f: Fields)
    ensures BuildPrompt(x.(fields := f)) == Before(x) + TaskBlock(x.id, f) + After(x)
    ensures Before(x) ==
      Led(TrimSpace(x.base)) + Led(TrimSpace(x.sourceSpecific)) + Led(TrimSpace(x.triage))
    ensures After(x) == if x.sentinel == "" then "" else "\n\n" + x.sentinel
  {
    LedParts(TrimSpace(x.base), TrimSpace(x.sourceSpecific), TrimSpace(x.triage));
    var parts := Section(TrimSpace(x.base)) + Section(TrimSpace(x.sourceSpecific)) + Section(TrimSpace(x.triage));
    JoinAround(parts, TaskBlock(x.id, f), x.sentinel);
  }

  lemma JoinAround(parts: seq<string>, block: string, last: string)
    ensures Join(parts + [block] + Section(last), "\n\n")
      == (if parts == [] then "" else Join(parts, "\n\n") + "\n\n") + block + (if last == "" then "" else "\n\n" + last)
  {
    var tail := [block] + Section(last);
    assert Join(tail, "\n\n") == block + (if last == "" then "" else "\n\n" + last) by {
      if last == "" {
        assert tail == [block];
      } else {
        JoinConcat([block], [last], "\n\n");
      }
    }
    assert parts + [block] + Section(last) == parts + tail;
    if parts == [] {
      assert parts + tail == tail;
    } else {
      JoinConcat(parts, tail, "\n\n");
    }
  }
}
