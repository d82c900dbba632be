/** What silence and receipts mean for a reader of the text (server/src/companion/heartbeatPolicy.ts). */
module HeartbeatReceipts {
  import opened HeartbeatPolicy

  // ---- silence, read off the text ----

  predicate Spaces(s: string) {
    forall i :: 0 <= i < |s| ==> IsSpace(s[i])
  }

  predicate Marks(s: string) {
    forall i :: 0 <= i < |s| ==> IsSpace(s[i]) || s[i] in "。.!～~"
  }

  lemma {:induction false} TrimStartCuts(s: string) returns (before: string)
    ensures s == before + TrimStart(s) && Spaces(before)
    ensures TrimStart(s) != "" ==> !IsSpace(TrimStart(s)[0])
  {
    before := "";
    if s != "" && IsSpace(s[0]) {
      var first, tail := s[0], s[1..];
      var rest := TrimStartCuts(tail);
      before := [first] + rest;
      assert s == [first] + tail;
      assert [first] + (rest + TrimStart(tail)) == before + TrimStart(tail);
    }
  }

  lemma {:induction false} TrimEndCuts(s: string) returns (after: string)
    ensures s == TrimEnd(s) + after && Spaces(after)
    ensures TrimEnd(s) != "" ==> !IsSpace(TrimEnd(s)[|TrimEnd(s)| - 1])
  {
    after := "";
    if s != "" && IsSpace(s[|s| - 1]) {
      var front, last := s[..|s| - 1], s[|s| - 1];
      var rest := TrimEndCuts(front);
      after := rest + [last];
      assert s == front + [last];
      assert (TrimEnd(front) + rest) + [last] == TrimEnd(front) + after;
    }
  }

  /** Trimming takes the spaces off both ends, and nothing else. */
  lemma TrimCuts(s: string) returns (before: string, after: string)
    ensures s == before + (Trim(s) + after) && Spaces(before) && Spaces(after)
    ensures Trim(s) != "" ==> !IsSpace(Trim(s)[0]) && !IsSpace(Trim(s)[|Trim(s)| - 1])
  {
    before := TrimStartCuts(s);
    after := TrimEndCuts(TrimStart(s));
    if Trim(s) != "" {
      assert TrimStart(s)[0] == Trim(s)[0];
    }
  }

  /** Where the spaces in front end is in one place only. */
  lemma SameStart(a: string, x: string, b: string, y: string)
    requires a + x == b + y && Spaces(a) && Spaces(b)
    requires x != "" && !IsSpace(x[0]) && y != "" && !IsSpace(y[0])
    ensures x == y
  {
    assert (a + x)[|a|] == x[0] && (b + y)[|b|] == y[0];
    assert forall i :: 0 <= i < |a| ==> (a + x)[i] == a[i];
    assert forall i :: 0 <= i < |b| ==> (b + y)[i] == b[i];
    assert |a| == |b|;
    assert x == (a + x)[|a|..] == (b + y)[|b|..] == y;
  }

  predicate SilentParts(text: string, before: string, marks: string) {
    text == before + (OK + marks) && Spaces(before) && Marks(marks)
  }

  lemma MarksThenSpaces(marks: string, spaces: string)
    requires Marks(marks) && Spaces(spaces)
    ensures Marks(marks + spaces)
  {
  }

  lemma SilentHasParts(text: string) returns (before: string, marks: string)
    requires IsSilent(text)
    ensures SilentParts(text, before, marks)
  {
    var after;
    before, after := TrimCuts(text);
    var t := Trim(text);
    var rest := t[|OK|..];
    marks := rest + after;
    assert t == OK + rest;
    assert (OK + rest) + after == OK + marks;
    MarksThenSpaces(rest, after);
  }

  lemma PartsAreSilent(text: string, before: string, marks: string)
    requires SilentParts(text, before, marks)
    ensures IsSilent(text)
  {
    var b, after := TrimCuts(text);
    WordIsTrimmed(text, before, marks, b, Trim(text), after);
  }

  /** A text is silent if and only if it is the silent word between white space, and marks or white space. */
  lemma SilentExactly(text: string)
    ensures IsSilent(text) <==> exists before, marks :: SilentParts(text, before, marks)
  {
    if IsSilent(text) {
      var before, marks := SilentHasParts(text);
    }
    if before, marks :| SilentParts(text, before, marks) {
      PartsAreSilent(text, before, marks);
    }
  }

  lemma WordIsTrimmed(text: string, a: string, marks: string, before: string, t: string, after: string)
    requires SilentParts(text, a, marks) && text == before + (t + after) && Spaces(before) && Spaces(after)
    requires t != "" ==> !IsSpace(t[0])
    ensures OK <= t && forall i :: |OK| <= i < |t| ==> IsSpace(t[i]) || t[i] in "。.!～~"
  {
    var word := OK + marks;
    assert word[0] == 'H' && word[|OK| - 1] == 'K' && !IsSpace('H') && !IsSpace('K');
    assert text[|a|] == word[0];
    assert forall i :: 0 <= i < |before| ==> text[i] == before[i];
    assert forall i :: |before| + |t| <= i < |text| ==> text[i] == after[i - |before| - |t|];
    assert t != "";
    assert (t + after)[0] == t[0];
    SameStart(a, word, before, t + after);
    assert forall i :: |t| <= i < |word| ==> word[i] == after[i - |t|];
    assert |t| >= |OK|;
    assert t == word[..|t|] && t[..|OK|] == word[..|OK|] == OK;
    assert forall i :: |OK| <= i < |t| ==> t[i] == marks[i - |OK|];
  }

  // ---- receipts ----

  /** The writes listed are the write tools called, each once. */
  lemma {:induction false} WritesListed(p: Patterns, tools: seq<string>)
    ensures forall name :: name in Writes(p, tools) <==> name in tools && p.isWrite(name)
    ensures forall i, j :: 0 <= i < j < |Writes(p, tools)| ==> Writes(p, tools)[i] != Writes(p, tools)[j]
  {
    if tools != [] {
      WritesListed(p, tools[..|tools| - 1]);
      assert tools == tools[..|tools| - 1] + [tools[|tools| - 1]];
    }
  }

  /** a is called before b is first called. */
  predicate CalledBefore(tools: seq<string>, a: string, b: string) {
    exists i :: 0 <= i < |tools| && tools[i] == a && forall j :: 0 <= j <= i ==> tools[j] != b
  }

  lemma CalledBeforeMore(tools: seq<string>, last: string, a: string, b: string)
    ensures CalledBefore(tools, a, b) ==> CalledBefore(tools + [last], a, b)
    ensures a in tools && b !in tools ==> CalledBefore(tools + [last], a, b)
  {
    var more := tools + [last];
    if CalledBefore(tools, a, b) {
      var i :| 0 <= i < |tools| && tools[i] == a && forall j :: 0 <= j <= i ==> tools[j] != b;
      assert more[i] == a && forall j :: 0 <= j <= i ==> more[j] == tools[j];
    }
    if a in tools && b !in tools {
      var i :| 0 <= i < |tools| && tools[i] == a;
      assert more[i] == a && forall j :: 0 <= j <= i ==> more[j] == tools[j];
    }
  }

  /** They are listed in the order of their first calls. */
  lemma {:induction false} WritesInOrder(p: Patterns, tools: seq<string>, i: nat, j: nat)
    requires i < j < |Writes(p, tools)|
    ensures CalledBefore(tools, Writes(p, tools)[i], Writes(p, tools)[j])
  {
    var front, last := tools[..|tools| - 1], tools[|tools| - 1];
    assert tools == front + [last];
    var before := Writes(p, front);
    WritesListed(p, front);
    CalledBeforeMore(front, last, Writes(p, tools)[i], Writes(p, tools)[j]);
    if j < |before| {
      WritesInOrder(p, front, i, j);
    } else {
      assert before[i] in before;
    }
  }

  predicate MentionedAt(text: string, name: string, i: nat) {
    i + |name| <= |text| && text[i..i + |name|] == name
  }

  predicate Mentions(text: string, name: string) {
    exists i: nat :: i <= |text| && MentionedAt(text, name, i)
  }

  lemma MentionsMore(a: string, text: string, b: string, name: string)
    requires Mentions(text, name)
    ensures Mentions(a + text + b, name)
  {
    var i: nat :| i <= |text| && MentionedAt(text, name, i);
    var all := a + text + b;
    assert all[|a| + i..|a| + i + |name|] == name;
    assert MentionedAt(all, name, |a| + i);
  }

  lemma {:induction false} JoinMentions(names: seq<string>, k: nat)
    requires k < |names|
    ensures Mentions(Join(names), names[k])
  {
    var front, last := names[..|names| - 1], names[|names| - 1];
    if k == |names| - 1 {
      assert MentionedAt(last, last, 0);
      var before := if |names| == 1 then "" else Join(front) + "、";
      MentionsMore(before, last, "", last);
      assert Join(names) == before + last + "";
    } else {
      JoinMentions(front, k);
      MentionsMore("", Join(front), "、" + last, names[k]);
      assert Join(names) == "" + Join(front) + ("、" + last);
    }
  }

  /** A receipt names every tool that may have written. */
  lemma ReceiptNamesWrites(p: Patterns, text: string, tools: seq<string>, name: string)
    requires (Trim(text) == "" || IsSilent(text)) && name in tools && p.isWrite(name)
    ensures Mentions(Receipt(p, text, tools), name)
  {
    WritesListed(p, tools);
    var writes := Writes(p, tools);
    var k :| 0 <= k < |writes| && writes[k] == name;
    JoinMentions(writes, k);
    ReceiptHoldsNames(writes, name);
  }

  lemma ReceiptHoldsNames(writes: seq<string>, name: string)
    requires Mentions(Join(writes), name)
    ensures Mentions(ReceiptText(writes), name)
  {
    var start, end := "本轮尝试了以下操作：",
      "。模型没有提供操作回执，结果需要核对；不能据此认定操作成功。为避免重复操作，本轮不会自动重试。";
    MentionsMore(start, Join(writes), end, name);
    assert ReceiptText(writes) == start + Join(writes) + end;
  }

  /** A text that speaks is left as it is. */
  lemma SpeakingTextKept(p: Patterns, text: string, tools: seq<string>)
    requires Trim(text) != "" && !IsSilent(text)
    ensures Receipt(p, text, tools) == text
  {
  }
}
