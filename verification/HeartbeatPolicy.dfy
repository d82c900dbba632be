/** server/src/companion/heartbeatPolicy.ts: silence, write tools and receipts. */
module HeartbeatPolicy {

  /** White space and line ends, as `trim` and `\s` know them. */
  predicate IsSpace(c: char) {
    c in "\t\n\r \U{0B}\U{0C}\U{A0}\U{1680}\U{2028}\U{2029}\U{202F}\U{205F}\U{3000}\U{FEFF}"
    || '\U{2000}' <= c <= '\U{200A}'
  }

  function TrimStart(s: string): string {
    if s != "" && IsSpace(s[0]) then TrimStart(s[1..]) else s
  }

  function TrimEnd(s: string): string {
    if s != "" && IsSpace(s[|s| - 1]) then TrimEnd(s[..|s| - 1]) else s
  }

  function Trim(s: string): string {
    TrimEnd(TrimStart(s))
  }

  const OK := "HEARTBEAT_OK"

  /** The trimmed text is the silent word, followed by nothing but white space and closing marks; the same pattern in
      both files. */
  predicate IsSilent(text: string) {
    var t := Trim(text);
    OK <= t && forall i :: |OK| <= i < |t| ==> IsSpace(t[i]) || t[i] in "。.!～~"
  }

  /** Text matching done with regular expressions on tool names and error messages. */
  datatype Patterns = Patterns(isWrite: string -> bool, isRetryable: string -> bool)

  function Writes(p: Patterns, tools: seq<string>): seq<string> {
    if tools == [] then []
    else
      var before, last := Writes(p, tools[..|tools| - 1]), tools[|tools| - 1];
      if p.isWrite(last) && last !in before then before + [last] else before
  }

  function Join(names: seq<string>): string {
    if names == [] then ""
    else if |names| == 1 then names[0]
    else Join(names[..|names| - 1]) + "、" + names[|names| - 1]
  }

  function Receipt(p: Patterns, text: string, tools: seq<string>): string {
    if Trim(text) != "" && !IsSilent(text) then text
    else
      var writes := Writes(p, tools);
      if writes == [] then text else ReceiptText(writes)
  }

  function ReceiptText(writes: seq<string>): string {
    "本轮尝试了以下操作：" + Join(writes)
      + "。模型没有提供操作回执，结果需要核对；不能据此认定操作成功。为避免重复操作，本轮不会自动重试。"
  }

  predicate Wrote(p: Patterns, tools: seq<string>) {
    exists i :: 0 <= i < |tools| && p.isWrite(tools[i])
  }

  lemma {:induction false} SomeWrite(p: Patterns, tools: seq<string>)
    ensures Writes(p, tools) != [] <==> Wrote(p, tools)
  {
    if tools != [] {
      var front, last := tools[..|tools| - 1], tools[|tools| - 1];
      SomeWrite(p, front);
      assert tools == front + [last];
      if Wrote(p, front) {
        var i :| 0 <= i < |front| && p.isWrite(front[i]);
        assert p.isWrite(tools[i]);
      }
      if p.isWrite(last) && last in Writes(p, front) {
        assert p.isWrite(tools[|front|]);
      }
    }
  }

  lemma {:induction false} TrimKeepsFirst(s: string)
    requires s != "" && !IsSpace(s[0])
    ensures Trim(s) != "" && Trim(s)[0] == s[0]
  {
    TrimEndKeepsFirst(s);
  }

  lemma {:induction false} TrimEndKeepsFirst(s: string)
    requires s != "" && !IsSpace(s[0])
    ensures TrimEnd(s) != "" && TrimEnd(s)[0] == s[0]
  {
    if IsSpace(s[|s| - 1]) {
      TrimEndKeepsFirst(s[..|s| - 1]);
    }
  }

  /** A receipt replaces a blank or silent text exactly when something was possibly written, and it is
      neither blank nor silent itself. */
  lemma ReceiptSpeaks(p: Patterns, text: string, tools: seq<string>)
    requires Trim(text) == "" || IsSilent(text)
    ensures Wrote(p, tools) ==>
      var r := Receipt(p, text, tools);
      r == Receipt(p, "", tools) && Trim(r) != "" && !IsSilent(r) && r != text
    ensures !Wrote(p, tools) ==> Receipt(p, text, tools) == text
  {
    SomeWrite(p, tools);
    var writes := Writes(p, tools);
    if writes != [] {
      var r := ReceiptText(writes);
      assert r[0] == '本';
      TrimKeepsFirst(r);
      assert OK[0] == 'H' && Trim(r)[0] != OK[0];
    }
  }
}
