// phase-1-foundations/benchmark.py _extract_json: the first brace-balanced span of a model's reply, handed to
// the JSON parser. The scan counts every brace character, whether or not it is inside a string.
module ExtractJson {
  import opened Wrappers

  function Delta(c: char): int {
    if c == '{' then 1 else if c == '}' then -1 else 0
  }

  function Depth(s: string): int {
    if s == [] then 0 else Depth(s[..|s| - 1]) + Delta(s[|s| - 1])
  }

  // [a, b) runs from the first '{' of the text to the first place where the braces since balance.
  ghost predicate IsSpan(text: string, a: nat, b: nat) {
    && a < b <= |text|
    && text[a] == '{' && (forall k :: 0 <= k < a ==> text[k] != '{')
    && Depth(text[a..b]) == 0
    && forall c :: a < c < b ==> Depth(text[a..c]) != 0
  }

  lemma SpanIsUnique(text: string, a: nat, b: nat, a': nat, b': nat)
    requires IsSpan(text, a, b) && IsSpan(text, a', b')
    ensures a == a' && b == b'
  {
  }

  lemma DepthStep(text: string, a: nat, i: nat)
    requires a <= i < |text|
    ensures Depth(text[a..i + 1]) == Depth(text[a..i]) + Delta(text[i])
  {
    assert text[a..i + 1][..i - a] == text[a..i];
  }

  method Find(text: string, c: char) returns (at: int)
    ensures at < 0 ==> forall k :: 0 <= k < |text| ==> text[k] != c
    ensures at >= 0 ==> at < |text| && text[at] == c && forall k :: 0 <= k < at ==> text[k] != c
  {
    for i := 0 to |text|
      invariant forall k :: 0 <= k < i ==> text[k] != c
    {
      if text[i] == c {
        return i;
      }
    }
    return -1;
  }

  // `loads` is json.loads, None where it raises JSONDecodeError.
  method Extract<T>(text: string, loads: string -> Option<T>) returns (span: Option<(nat, nat)>, value: Option<T>)
    ensures span.Some? ==> IsSpan(text, span.value.0, span.value.1)
    ensures span.None? ==> forall a: nat, b: nat :: !IsSpan(text, a, b)
    ensures value == if span.Some? then loads(text[span.value.0..span.value.1]) else None
  {
    var start := Find(text, '{');
    if start < 0 {
      return None, None;
    }
    var depth, i := 0, start;
    assert text[start..start] == [];
    while i < |text|
      invariant start <= i <= |text|
      invariant depth == Depth(text[start..i]) && (i == start <==> depth <= 0)
      invariant forall c :: start < c <= i ==> Depth(text[start..c]) != 0
    {
      DepthStep(text, start, i);
      if text[i] == '{' {
        depth := depth + 1;
      } else if text[i] == '}' {
        depth := depth - 1;
        if depth == 0 {
          return Some((start, i + 1)), loads(text[start..i + 1]);
        }
      }
      i := i + 1;
    }
    return None, None;
  }

  /******* JSON texts (RFC 8259) *******/

  // A JSON text with its layout: whitespace stands wherever section 2 allows it.
  datatype Json =
    | Literal(name: string)
    | Number(lexeme: string)
    | String(body: string)
    | Array(gap: string, items: seq<Item>)
    | Object(gap: string, members: seq<Member>)

  datatype Item = Item(before: string, value: Json, after: string)

  datatype Member = Member(beforeKey: string, key: string, afterKey: string,
                           beforeValue: string, value: Json, afterValue: string)

  function Text(j: Json): string
    decreases j, 1
  {
    match j
    case Literal(name) => name
    case Number(lexeme) => lexeme
    case String(body) => "\"" + body + "\""
    case Array(gap, items) => "[" + (if items == [] then gap else ItemsText(j, items)) + "]"
    case Object(gap, members) => "{" + (if members == [] then gap else MembersText(j, members)) + "}"
  }

  function ItemsText(whole: Json, items: seq<Item>): string
    requires forall i :: i in items ==> i.value < whole
    decreases whole, 0, |items|
  {
    if items == [] then []
    else
      var i := items[|items| - 1];
      var last := i.before + Text(i.value) + i.after;
      if |items| == 1 then last else ItemsText(whole, items[..|items| - 1]) + "," + last
  }

  function MembersText(whole: Json, members: seq<Member>): string
    requires forall m :: m in members ==> m.value < whole
    decreases whole, 0, |members|
  {
    if members == [] then []
    else
      var m := members[|members| - 1];
      var last := m.beforeKey + "\"" + m.key + "\"" + m.afterKey + ":" + m.beforeValue + Text(m.value) + m.afterValue;
      if |members| == 1 then last else MembersText(whole, members[..|members| - 1]) + "," + last
  }

  // The grammar's punctuation, on texts that use all of it.
  lemma ArrayPrintsAsJson()
    ensures Text(Array("", [Item("", Number("1"), ""), Item(" ", Number("2"), "")])) == "[1, 2]"
  {
    var items := [Item("", Number("1"), ""), Item(" ", Number("2"), "")];
    var list := Array("", items);
    assert items[..1] == [Item("", Number("1"), "")];
    assert ItemsText(list, items[..1]) == "" + "1" + "";
    assert ItemsText(list, items) == ItemsText(list, items[..1]) + "," + (" " + "2" + "");
  }

  lemma ObjectPrintsAsJson()
    ensures var members := [Member("", "a", "", "", String("x"), ""), Member(" ", "b", "", "", Literal("true"), "")];
      Text(Object("", members)) == "{\"a\":\"x\", \"b\":true}"
  {
    var members := [Member("", "a", "", "", String("x"), ""), Member(" ", "b", "", "", Literal("true"), "")];
    var j := Object("", members);
    assert members[..1] == [Member("", "a", "", "", String("x"), "")];
    var one := MembersText(j, members[..1]);
    assert Text(members[0].value) == "\"" + "x" + "\"";
    assert one == "\"a\":\"x\"" by {
      assert one == "" + "\"" + "a" + "\"" + "" + ":" + "" + ("\"" + "x" + "\"") + "";
    }
    var last := " " + "\"" + "b" + "\"" + "" + ":" + "" + "true" + "";
    assert last == " \"b\":true";
    assert MembersText(j, members) == one + "," + last;
  }

  predicate Whitespace(s: string) {
    forall c :: c in s ==> c in " \t\n\r"
  }

  predicate Hex(c: char) {
    '0' <= c <= '9' || 'a' <= c <= 'f' || 'A' <= c <= 'F'
  }

  // Section 7: no control character, no bare quote, every backslash starts an escape.
  predicate StringBody(s: string) {
    s == [] ||
    (if s[0] == '\\' then
       |s| >= 2 &&
       ((s[1] in "\"\\/bfnrt" && StringBody(s[2..]))
        || (s[1] == 'u' && |s| >= 6 && Hex(s[2]) && Hex(s[3]) && Hex(s[4]) && Hex(s[5]) && StringBody(s[6..])))
     else s[0] != '"' && s[0] >= ' ' && StringBody(s[1..]))
  }

  // Every spelling section 6 allows is made of these characters.
  predicate NumberLexeme(s: string) {
    s != [] && forall c :: c in s ==> '0' <= c <= '9' || c in "+-.eE"
  }

  predicate WellFormed(j: Json)
    decreases j
  {
    match j
    case Literal(name) => name == "true" || name == "false" || name == "null"
    case Number(lexeme) => NumberLexeme(lexeme)
    case String(body) => StringBody(body)
    case Array(gap, items) =>
      Whitespace(gap) && forall i :: i in items ==> Whitespace(i.before) && Whitespace(i.after) && WellFormed(i.value)
    case Object(gap, members) =>
      Whitespace(gap) && forall m :: m in members ==>
        Whitespace(m.beforeKey) && Whitespace(m.afterKey) && Whitespace(m.beforeValue) && Whitespace(m.afterValue)
        && StringBody(m.key) && WellFormed(m.value)
  }

  predicate BraceFree(s: string) {
    '{' !in s && '}' !in s
  }

  // No string or key of the text spells a brace literally (a \u007b escape is fine).
  predicate StringsBraceFree(j: Json)
    decreases j
  {
    match j
    case Literal(_) => true
    case Number(_) => true
    case String(body) => BraceFree(body)
    case Array(_, items) => forall i :: i in items ==> StringsBraceFree(i.value)
    case Object(_, members) => forall m :: m in members ==> BraceFree(m.key) && StringsBraceFree(m.value)
  }

  /******* Balance *******/

  ghost predicate Balanced(s: string) {
    Depth(s) == 0 && forall k :: 0 <= k <= |s| ==> Depth(s[..k]) >= 0
  }

  // Balanced, and open from the first character to the last.
  ghost predicate Enclosed(s: string) {
    s != [] && Depth(s) == 0 && forall k :: 0 < k < |s| ==> Depth(s[..k]) > 0
  }

  lemma {:induction false} DepthConcat(a: string, b: string)
    ensures Depth(a + b) == Depth(a) + Depth(b)
  {
    if b == [] {
      assert a + b == a;
    } else {
      assert (a + b)[..|a + b| - 1] == a + b[..|b| - 1];
      DepthConcat(a, b[..|b| - 1]);
    }
  }

  lemma BalancedConcat(a: string, b: string)
    requires Balanced(a) && Balanced(b)
    ensures Balanced(a + b)
  {
    DepthConcat(a, b);
    forall k | 0 <= k <= |a + b| ensures Depth((a + b)[..k]) >= 0 {
      if k <= |a| {
        assert (a + b)[..k] == a[..k];
      } else {
        assert (a + b)[..k] == a + b[..k - |a|];
        DepthConcat(a, b[..k - |a|]);
      }
    }
  }

  lemma {:induction false} BraceFreeBalanced(s: string)
    requires BraceFree(s)
    ensures Balanced(s)
  {
    if s != [] {
      var t := s[..|s| - 1];
      BraceFreeBalanced(t);
      forall k | 0 <= k <= |s| ensures Depth(s[..k]) >= 0 {
        if k < |s| { assert s[..k] == t[..k]; } else { assert s[..k] == s; }
      }
    } else {
      assert s[..0] == [];
    }
  }

  lemma Bracketed(s: string)
    requires Balanced(s)
    ensures Enclosed("{" + s + "}") && Balanced("{" + s + "}")
  {
    var t := "{" + s + "}";
    assert Depth("{") == 1 by { assert "{"[..0] == []; }
    assert Depth("}") == -1 by { assert "}"[..0] == []; }
    DepthConcat("{", s);
    DepthConcat("{" + s, "}");
    forall k | 0 < k < |t| ensures Depth(t[..k]) > 0 {
      assert t[..k] == "{" + s[..k - 1];
      DepthConcat("{", s[..k - 1]);
    }
    forall k | 0 <= k <= |t| ensures Depth(t[..k]) >= 0 {
      if k == 0 { assert t[..k] == []; } else if k == |t| { assert t[..k] == t; }
    }
  }

  lemma Surrounded(a: string, s: string, b: string)
    requires BraceFree(a) && Balanced(s) && BraceFree(b)
    ensures Balanced(a + s + b)
  {
    BraceFreeBalanced(a);
    BraceFreeBalanced(b);
    BalancedConcat(a, s);
    BalancedConcat(a + s, b);
  }

  lemma Joined(a: string, b: string)
    requires Balanced(a) && Balanced(b)
    ensures Balanced(a + "," + b)
  {
    BraceFreeBalanced(",");
    BalancedConcat(a, ",");
    BalancedConcat(a + ",", b);
  }

  lemma {:induction false} TextBalanced(j: Json)
    requires WellFormed(j) && StringsBraceFree(j)
    ensures Balanced(Text(j))
    decreases j, 1
  {
    match j
    case Literal(name) => BraceFreeBalanced(name);
    case Number(lexeme) => BraceFreeBalanced(lexeme);
    case String(body) => BraceFreeBalanced("\"" + body + "\"");
    case Array(gap, items) =>
      var inner := if items == [] then gap else ItemsText(j, items);
      if items == [] { BraceFreeBalanced(gap); } else { ItemsBalanced(j, items); }
      Surrounded("[", inner, "]");
    case Object(_, _) => ObjectEnclosed(j);
  }

  lemma {:induction false} ItemsBalanced(whole: Json, items: seq<Item>)
    requires forall i :: i in items ==> i.value < whole && Whitespace(i.before) && Whitespace(i.after)
    requires forall i :: i in items ==> WellFormed(i.value) && StringsBraceFree(i.value)
    requires items != []
    ensures Balanced(ItemsText(whole, items))
    decreases whole, 0, |items|
  {
    var i := items[|items| - 1];
    TextBalanced(i.value);
    Surrounded(i.before, Text(i.value), i.after);
    if |items| > 1 {
      ItemsBalanced(whole, items[..|items| - 1]);
      Joined(ItemsText(whole, items[..|items| - 1]), i.before + Text(i.value) + i.after);
    }
  }

  lemma {:induction false} MembersBalanced(whole: Json, members: seq<Member>)
    requires forall m :: m in members ==> m.value < whole && WellFormed(m.value) && StringsBraceFree(m.value)
    requires forall m :: m in members ==> Whitespace(m.beforeKey) && Whitespace(m.afterKey)
    requires forall m :: m in members ==> Whitespace(m.beforeValue) && Whitespace(m.afterValue) && BraceFree(m.key)
    requires members != []
    ensures Balanced(MembersText(whole, members))
    decreases whole, 0, |members|
  {
    var m := members[|members| - 1];
    TextBalanced(m.value);
    var lead := m.beforeKey + "\"" + m.key + "\"" + m.afterKey + ":" + m.beforeValue;
    Surrounded(lead, Text(m.value), m.afterValue);
    if |members| > 1 {
      MembersBalanced(whole, members[..|members| - 1]);
      Joined(MembersText(whole, members[..|members| - 1]), lead + Text(m.value) + m.afterValue);
    }
  }

  lemma {:induction false} ObjectEnclosed(j: Json)
    requires j.Object? && WellFormed(j) && StringsBraceFree(j)
    ensures Enclosed(Text(j)) && Balanced(Text(j)) && Text(j)[0] == '{'
    decreases j, 0, |j.members| + 1
  {
    var inner := if j.members == [] then j.gap else MembersText(j, j.members);
    if j.members == [] { BraceFreeBalanced(j.gap); } else { MembersBalanced(j, j.members); }
    Bracketed(inner);
  }

  /******* Recovery *******/

  // A text starting with '{' is picked out of every reply that has no '{' before it if and only if,
  // counting every brace it contains, it closes exactly at its last character.
  lemma PickedOutIff(o: string)
    requires o != [] && o[0] == '{'
    ensures (forall prefix: string, suffix: string :: '{' !in prefix ==>
               IsSpan(prefix + o + suffix, |prefix|, |prefix| + |o|))
       <==> Enclosed(o)
  {
    if Enclosed(o) {
      forall prefix: string, suffix: string | '{' !in prefix
        ensures IsSpan(prefix + o + suffix, |prefix|, |prefix| + |o|)
      {
        EnclosedIsSpan(prefix, o, suffix);
      }
    } else {
      var empty: string := [];
      assert empty + o + empty == o;
      if IsSpan(empty + o + empty, |empty|, |empty| + |o|) {
        SpanIsEnclosed(o);
      }
    }
  }

  lemma EnclosedIsSpan(prefix: string, o: string, suffix: string)
    requires Enclosed(o) && o[0] == '{' && '{' !in prefix
    ensures IsSpan(prefix + o + suffix, |prefix|, |prefix| + |o|)
  {
    var text, a, b := prefix + o + suffix, |prefix|, |prefix| + |o|;
    assert text[a..b] == o;
    forall c | a < c < b ensures Depth(text[a..c]) != 0 {
      assert text[a..c] == o[..c - a];
    }
  }

  lemma {:induction false} OpenUntilZero(o: string, k: nat)
    requires 0 < k <= |o| && o[0] == '{' && (forall c :: 0 < c < k ==> Depth(o[..c]) != 0)
    ensures forall c :: 0 < c < k ==> Depth(o[..c]) > 0
  {
    if k > 2 {
      OpenUntilZero(o, k - 1);
      assert o[..k - 1][..k - 2] == o[..k - 2];
    } else if k == 2 {
      assert o[..1][..0] == [];
    }
  }

  lemma SpanIsEnclosed(o: string)
    requires IsSpan(o, 0, |o|)
    ensures Enclosed(o)
  {
    assert o[0..|o|] == o;
    forall c | 0 < c < |o| ensures Depth(o[..c]) != 0 { assert o[0..c] == o[..c]; }
    OpenUntilZero(o, |o|);
  }

  // A serialised object without literal braces in its strings is recovered exactly, whatever layout it has
  // and whatever follows it.
  lemma PrintedObjectIsRecovered(prefix: string, j: Json, suffix: string)
    requires '{' !in prefix && j.Object? && WellFormed(j) && StringsBraceFree(j)
    ensures var text := prefix + Text(j) + suffix; var a, b := |prefix|, |prefix| + |Text(j)|;
      IsSpan(text, a, b) && text[a..b] == Text(j)
  {
    ObjectEnclosed(j);
    EnclosedIsSpan(prefix, Text(j), suffix);
    var text := prefix + Text(j) + suffix;
    assert text[|prefix|..|prefix| + |Text(j)|] == Text(j);
  }

  // With a closing brace inside a string the slice stops early.
  lemma BraceInStringCutsShort()
    ensures var j := Object("", [Member("", "a", "", "", String("}"), "")]);
      && WellFormed(j) && Text(j) == "{\"a\":\"}\"}" && !Enclosed(Text(j))
      && IsSpan(Text(j), 0, 7)
  {
    var j := Object("", [Member("", "a", "", "", String("}"), "")]);
    var t := "{\"a\":\"}\"}";
    assert StringBody("}") by { assert "}"[1..] == []; }
    assert StringBody("a") by { assert "a"[1..] == []; }
    assert MembersText(j, j.members) == "" + "\"" + "a" + "\"" + "" + ":" + "" + Text(String("}")) + "";
    assert Text(j) == t;
    Depths(t);
    assert t[..0] == [] && t[0..7] == t[..7];
    forall c | 0 < c < 7 ensures Depth(t[0..c]) != 0 { assert t[0..c] == t[..c]; }
  }

  lemma Depths(t: string)
    requires t == "{\"a\":\"}\"}"
    ensures Depth(t[..1]) == 1 && Depth(t[..2]) == 1 && Depth(t[..3]) == 1 && Depth(t[..4]) == 1
    ensures Depth(t[..5]) == 1 && Depth(t[..6]) == 1 && Depth(t[..7]) == 0
  {
    assert Depth(t[0..0]) == 0;
    DepthStep(t, 0, 0); DepthStep(t, 0, 1); DepthStep(t, 0, 2); DepthStep(t, 0, 3);
    DepthStep(t, 0, 4); DepthStep(t, 0, 5); DepthStep(t, 0, 6);
  }

  /******* The first balanced object *******/

  // A balanced object with nothing around it: it opens at a and first closes at b.
  ghost predicate ObjectAt(text: string, a: nat, b: nat) {
    a < b <= |text| && text[a] == '{' && Enclosed(text[a..b])
  }

  // What the documentation promises.
  ghost predicate FirstObject(text: string, a: nat, b: nat) {
    ObjectAt(text, a, b) && forall x: nat, y: nat :: x < a ==> !ObjectAt(text, x, y)
  }

  // The braces counted from a come back to zero.
  ghost predicate Closes(text: string, a: nat)
    requires a <= |text|
  {
    exists b :: a < b <= |text| && Depth(text[a..b]) == 0
  }

  // Given any object, what precedes it alone decides whether it is picked.
  lemma ObjectIsPickedIff(prefix: string, o: string, suffix: string)
    requires Enclosed(o) && o[0] == '{'
    ensures IsSpan(prefix + o + suffix, |prefix|, |prefix| + |o|) <==> '{' !in prefix
  {
    var text := prefix + o + suffix;
    if '{' !in prefix {
      EnclosedIsSpan(prefix, o, suffix);
    } else {
      var k :| 0 <= k < |prefix| && prefix[k] == '{';
      assert text[k] == '{';
    }
  }

  lemma ObjectIsSpanIff(text: string, a: nat, b: nat)
    requires ObjectAt(text, a, b)
    ensures IsSpan(text, a, b) <==> '{' !in text[..a]
  {
    ObjectIsPickedIff(text[..a], text[a..b], text[b..]);
    assert text[..a] + text[a..b] + text[b..] == text;
  }

  // A brace that closes has an object: up to the first place where it closes.
  lemma ClosingBraceHasObject(text: string, a: nat) returns (b: nat)
    requires a < |text| && text[a] == '{' && Closes(text, a)
    ensures ObjectAt(text, a, b)
  {
    b := a + 1;
    var end: nat :| a < end <= |text| && Depth(text[a..end]) == 0;
    while Depth(text[a..b]) != 0
      invariant a < b <= end
      invariant forall c :: a < c < b ==> Depth(text[a..c]) != 0
      decreases end - b
    {
      b := b + 1;
    }
    var o := text[a..b];
    forall c | 0 < c < |o| ensures Depth(o[..c]) != 0 { assert o[..c] == text[a..a + c]; }
    OpenUntilZero(o, |o|);
  }

  lemma {:induction false} LeftmostObject(text: string, a: nat, b: nat) returns (x: nat, y: nat)
    requires ObjectAt(text, a, b)
    ensures FirstObject(text, x, y)
  {
    x, y := a, b;
    if earlier: nat, end: nat :| earlier < a && ObjectAt(text, earlier, end) {
      x, y := LeftmostObject(text, earlier, end);
    }
  }

  predicate FirstBraceAt(text: string, first: nat) {
    first < |text| && text[first] == '{' && '{' !in text[..first]
  }

  // The scan picks the first balanced object of a text if and only if, as soon as any brace of the text
  // closes, the first one does.
  lemma FirstObjectIsPickedIff(text: string)
    ensures (forall a: nat, b: nat :: FirstObject(text, a, b) ==> IsSpan(text, a, b))
       <==> (forall first: nat, a: nat ::
               FirstBraceAt(text, first) && a < |text| && text[a] == '{' && Closes(text, a) ==> Closes(text, first))
  {
    if forall a: nat, b: nat :: FirstObject(text, a, b) ==> IsSpan(text, a, b) {
      forall first: nat, a: nat | FirstBraceAt(text, first) && a < |text| && text[a] == '{' && Closes(text, a)
        ensures Closes(text, first)
      {
        var b := ClosingBraceHasObject(text, a);
        var x, y := LeftmostObject(text, a, b);
        SpanStartsAt(text, x, y, first);
      }
    } else {
      var a: nat, b: nat :| FirstObject(text, a, b) && !IsSpan(text, a, b);
      ObjectIsSpanIff(text, a, b);
      var first := FirstBrace(text[..a]);
      assert text[..a][..first] == text[..first];
      assert Depth(text[a..b]) == 0 && Closes(text, a);
      if Closes(text, first) {
        var c := ClosingBraceHasObject(text, first);
        assert false;
      }
    }
  }

  lemma SpanStartsAt(text: string, x: nat, y: nat, first: nat)
    requires IsSpan(text, x, y) && FirstBraceAt(text, first)
    ensures x == first && Closes(text, first)
  {
    assert forall k :: 0 <= k < first ==> text[k] in text[..first];
  }

  lemma {:induction false} FirstBrace(s: string) returns (first: nat)
    requires '{' in s
    ensures FirstBraceAt(s, first)
  {
    if s[0] == '{' {
      first := 0;
    } else {
      first := FirstBrace(s[1..]);
      assert s[..first + 1] == [s[0]] + s[1..][..first];
      first := first + 1;
    }
  }

  // So a single unclosed brace anywhere before it hides every object of a text.
  lemma UnclosedBraceHidesTheRest(prefix: string, between: string, o: string, suffix: string)
    requires Enclosed(o) && o[0] == '{' && '{' !in prefix && '{' !in suffix && '}' !in suffix && Balanced(between)
    ensures var text := prefix + "{" + between + o + suffix; var a := |prefix| + 1 + |between|;
      ObjectAt(text, a, a + |o|) && forall x: nat, y: nat :: !IsSpan(text, x, y)
  {
    var text, p, a := prefix + "{" + between + o + suffix, |prefix|, |prefix| + 1 + |between|;
    assert text[a..a + |o|] == o;
    forall y | p < y <= |text| ensures Depth(text[p..y]) > 0 {
      StaysOpen(between, o, suffix, y - p);
      assert text[p..y] == ("{" + between + o + suffix)[..y - p];
    }
    forall x: nat, y: nat ensures !IsSpan(text, x, y) {
      if IsSpan(text, x, y) {
        assert text[..p] == prefix;
        SpanStartsAt(text, x, y, p);
        assert false;
      }
    }
  }

  lemma StaysOpen(between: string, o: string, suffix: string, k: nat)
    requires Balanced(between) && Enclosed(o) && BraceFree(suffix) && 0 < k <= 1 + |between| + |o| + |suffix|
    ensures Depth(("{" + between + o + suffix)[..k]) > 0
  {
    var rest := between + o + suffix;
    EnclosedBalanced(o);
    BraceFreeBalanced(suffix);
    BalancedConcat(between, o);
    BalancedConcat(between + o, suffix);
    assert ("{" + between + o + suffix)[..k] == "{" + rest[..k - 1];
    DepthConcat("{", rest[..k - 1]);
    assert Depth("{") == 1 by { assert "{"[..0] == []; }
  }

  lemma EnclosedBalanced(o: string)
    requires Enclosed(o)
    ensures Balanced(o)
  {
    forall k | 0 <= k <= |o| ensures Depth(o[..k]) >= 0 {
      if k == 0 { assert o[..k] == []; } else if k == |o| { assert o[..k] == o; }
    }
  }
}
