/** The first structural difference of two JSON documents, and the JSON Pointer (RFC 6901) that leads to it. */
module JsonDiff {
  import opened Common
  import opened Sorting
  import opened Keys
  import opened Sequences

  /** Scalars are compared as written; arrays and objects by content. */
  datatype Value =
    | Null
    | Boolean(b: bool)
    | Number(text: string)
    | Text(s: string)
    | Arr(items: seq<Value>)
    | Obj(fields: map<string, Value>)

  datatype Step = AtIndex(i: nat) | AtKey(key: string)

  /** What differs at the end of the path. */
  datatype What =
    | Lengths(left: nat, right: nat)
    | OnlyLeft(value: Value)
    | OnlyRight(value: Value)
    | Differing(x: Value, y: Value)

  datatype Found = Found(path: seq<Step>, what: What)

  function Under(step: Step, f: Option<Found>): Option<Found> {
    if f.None? then None else Some(Found([step] + f.value.path, f.value.what))
  }

  /** The difference that a walk in array order and in key order meets first. */
  ghost function FirstDiff(l: Value, r: Value): Option<Found>
    decreases l, 1, 0
  {
    if l.Arr? && r.Arr? then
      if |l.items| != |r.items| then Some(Found([], Lengths(|l.items|, |r.items|))) else DiffFrom(l, r, 0)
    else if l.Obj? && r.Obj? then DiffKeys(l, r, SortedKeys(l.fields.Keys + r.fields.Keys))
    else if l != r then Some(Found([], Differing(l, r)))
    else None
  }

  ghost function DiffFrom(l: Value, r: Value, i: nat): Option<Found>
    requires l.Arr? && r.Arr? && |l.items| == |r.items| && i <= |l.items|
    decreases l, 0, |l.items| - i
  {
    if i == |l.items| then None
    else
      var d := FirstDiff(l.items[i], r.items[i]);
      if d.Some? then Under(AtIndex(i), d) else DiffFrom(l, r, i + 1)
  }

  ghost function DiffKeys(l: Value, r: Value, keys: seq<string>): Option<Found>
    requires l.Obj? && r.Obj?
    decreases l, 0, |keys|
  {
    if keys == [] then None
    else
      var k := keys[0];
      if k in l.fields && k in r.fields then
        var d := FirstDiff(l.fields[k], r.fields[k]);
        if d.Some? then Under(AtKey(k), d) else DiffKeys(l, r, keys[1..])
      else if k in l.fields then Some(Found([AtKey(k)], OnlyLeft(l.fields[k])))
      else if k in r.fields then Some(Found([AtKey(k)], OnlyRight(r.fields[k])))
      else DiffKeys(l, r, keys[1..])
  }

  // ---------------------------------------------------------------- nothing is found exactly when nothing differs

  /** Both documents have the key with the same value, or neither has it. */
  predicate Agree(l: Value, r: Value, k: string)
    requires l.Obj? && r.Obj?
  {
    (k in l.fields <==> k in r.fields) && (k in l.fields && k in r.fields ==> l.fields[k] == r.fields[k])
  }

  lemma {:induction false} NoneIffEqual(l: Value, r: Value)
    ensures FirstDiff(l, r).None? <==> l == r
    decreases l, 1, 0
  {
    if l.Arr? && r.Arr? && |l.items| == |r.items| {
      NoneFrom(l, r, 0);
    } else if l.Obj? && r.Obj? {
      var keys := SortedKeys(l.fields.Keys + r.fields.Keys);
      NoneInKeys(l, r, keys);
      if forall k :: k in keys ==> Agree(l, r, k) {
        assert l.fields == r.fields by {
          forall k | k in l.fields || k in r.fields
            ensures k in keys && Agree(l, r, k)
          {
            assert k in l.fields.Keys + r.fields.Keys;
          }
        }
      }
    }
  }

  lemma {:induction false} NoneFrom(l: Value, r: Value, i: nat)
    requires l.Arr? && r.Arr? && |l.items| == |r.items| && i <= |l.items|
    ensures DiffFrom(l, r, i).None? <==> l.items[i..] == r.items[i..]
    decreases l, 0, |l.items| - i
  {
    if i < |l.items| {
      NoneIffEqual(l.items[i], r.items[i]);
      NoneFrom(l, r, i + 1);
      assert l.items[i..] == [l.items[i]] + l.items[i + 1..] && r.items[i..] == [r.items[i]] + r.items[i + 1..];
    }
  }

  lemma {:induction false} NoneInKeys(l: Value, r: Value, keys: seq<string>)
    requires l.Obj? && r.Obj?
    ensures DiffKeys(l, r, keys).None? <==> forall k :: k in keys ==> Agree(l, r, k)
    decreases l, 0, |keys|
  {
    if keys != [] {
      var k := keys[0];
      NoneInKeys(l, r, keys[1..]);
      if k in l.fields && k in r.fields {
        NoneIffEqual(l.fields[k], r.fields[k]);
      }
      assert k in keys;
      assert forall j :: j in keys <==> j == k || j in keys[1..];
    }
  }

  // ---------------------------------------------------------------- what is found is the first difference

  /** The key is earlier in the order the walk visits keys. */
  predicate Before(j: string, k: string) {
    j != k && StringLeq(j, k)
  }

  /** Following the path, everything visited earlier agrees, and at its end the documents differ as described. */
  ghost predicate IsFirst(l: Value, r: Value, path: seq<Step>, what: What)
    decreases |path|
  {
    if path == [] then
      match what
      case Lengths(m, n) => l.Arr? && r.Arr? && m == |l.items| && n == |r.items| && m != n
      case Differing(x, y) => x == l && y == r && l != r && !(l.Arr? && r.Arr?) && !(l.Obj? && r.Obj?)
      case _ => false
    else
      match path[0]
      case AtIndex(i) =>
        && l.Arr? && r.Arr? && |l.items| == |r.items| && i < |l.items| && l.items[..i] == r.items[..i]
        && IsFirst(l.items[i], r.items[i], path[1..], what)
      case AtKey(k) =>
        && l.Obj? && r.Obj? && (forall j :: Before(j, k) ==> Agree(l, r, j))
        && (if k in l.fields && k in r.fields then IsFirst(l.fields[k], r.fields[k], path[1..], what)
            else path[1..] == [] && ((k in l.fields && what == OnlyLeft(l.fields[k]))
                                     || (k in r.fields && what == OnlyRight(r.fields[k]))))
  }

  lemma {:induction false} FoundIsFirst(l: Value, r: Value)
    requires FirstDiff(l, r).Some?
    ensures IsFirst(l, r, FirstDiff(l, r).value.path, FirstDiff(l, r).value.what)
    decreases l, 1, 0
  {
    if l.Arr? && r.Arr? && |l.items| == |r.items| {
      FoundFrom(l, r, 0);
    } else if l.Obj? && r.Obj? {
      var keys := SortedKeys(l.fields.Keys + r.fields.Keys);
      forall j | j !in keys
        ensures Agree(l, r, j)
      {
        assert j !in l.fields.Keys + r.fields.Keys;
      }
      assert keys[0..] == keys;
      FoundInKeys(l, r, keys, 0);
    }
  }

  lemma {:induction false} FoundFrom(l: Value, r: Value, i: nat)
    requires l.Arr? && r.Arr? && |l.items| == |r.items| && i <= |l.items|
    requires DiffFrom(l, r, i).Some? && l.items[..i] == r.items[..i]
    ensures IsFirst(l, r, DiffFrom(l, r, i).value.path, DiffFrom(l, r, i).value.what)
    decreases l, 0, |l.items| - i
  {
    if FirstDiff(l.items[i], r.items[i]).Some? {
      FoundIsFirst(l.items[i], r.items[i]);
      var f := FirstDiff(l.items[i], r.items[i]).value;
      assert ([AtIndex(i)] + f.path)[1..] == f.path;
    } else {
      NoneIffEqual(l.items[i], r.items[i]);
      assert l.items[..i + 1] == l.items[..i] + [l.items[i]] && r.items[..i + 1] == r.items[..i] + [r.items[i]];
      FoundFrom(l, r, i + 1);
    }
  }

  lemma {:induction false} FoundInKeys(l: Value, r: Value, keys: seq<string>, n: nat)
    requires l.Obj? && r.Obj? && n <= |keys| && SortedBy(keys, StringLeq) && Distinct(keys)
    requires forall j :: j !in keys ==> Agree(l, r, j)
    requires forall i :: 0 <= i < n ==> Agree(l, r, keys[i])
    requires DiffKeys(l, r, keys[n..]).Some?
    ensures IsFirst(l, r, DiffKeys(l, r, keys[n..]).value.path, DiffKeys(l, r, keys[n..]).value.what)
    decreases l, 0, |keys| - n
  {
    var rest := keys[n..];
    var k := keys[n];
    assert rest[0] == k && rest[1..] == keys[n + 1..];
    EarlierAgree(l, r, keys, n);
    if k in l.fields && k in r.fields {
      if FirstDiff(l.fields[k], r.fields[k]).Some? {
        FoundIsFirst(l.fields[k], r.fields[k]);
        var f := FirstDiff(l.fields[k], r.fields[k]).value;
        assert ([AtKey(k)] + f.path)[1..] == f.path;
      } else {
        NoneIffEqual(l.fields[k], r.fields[k]);
        FoundInKeys(l, r, keys, n + 1);
      }
    } else if k !in l.fields && k !in r.fields {
      FoundInKeys(l, r, keys, n + 1);
    }
  }

  /** In a sorted listing everything before position `n` and everything unlisted agrees, hence everything before that key. */
  lemma EarlierAgree(l: Value, r: Value, keys: seq<string>, n: nat)
    requires l.Obj? && r.Obj? && n < |keys| && SortedBy(keys, StringLeq)
    requires forall j :: j !in keys ==> Agree(l, r, j)
    requires forall i :: 0 <= i < n ==> Agree(l, r, keys[i])
    ensures forall j :: Before(j, keys[n]) ==> Agree(l, r, j)
  {
    hide StringLeq, Agree;
    forall j | Before(j, keys[n])
      ensures Agree(l, r, j)
    {
      if j in keys {
        var i :| 0 <= i < |keys| && keys[i] == j;
        if i > n {
          assert StringLeq(keys[n], keys[i]);
          StringAntisymmetric(keys[n], j);
        }
      }
    }
  }

  /** There is only one first difference. */
  lemma {:induction false} FirstIsUnique(l: Value, r: Value, p: seq<Step>, x: What, q: seq<Step>, y: What)
    requires IsFirst(l, r, p, x) && IsFirst(l, r, q, y)
    ensures p == q && x == y
    decreases |p|
  {
    FirstDiffers(l, r, p, x);
    if p == [] || q == [] {
    } else if p[0].AtIndex? {
      var i, j := p[0].i, q[0].i;
      IndexDiffers(l, r, i, p[1..], x);
      IndexDiffers(l, r, j, q[1..], y);
      SameIndex(l, r, i, j);
      FirstIsUnique(l.items[i], r.items[i], p[1..], x, q[1..], y);
      assert p == [p[0]] + p[1..] && q == [q[0]] + q[1..];
    } else {
      var i, j := p[0].key, q[0].key;
      KeyDiffers(l, r, i, p[1..], x);
      KeyDiffers(l, r, j, q[1..], y);
      StringTotal(i, j);
      assert i == j;
      if i in l.fields && i in r.fields {
        FirstIsUnique(l.fields[i], r.fields[i], p[1..], x, q[1..], y);
      }
      assert p == [p[0]] + p[1..] && q == [q[0]] + q[1..];
    }
  }

  lemma {:induction false} FirstDiffers(l: Value, r: Value, path: seq<Step>, what: What)
    requires IsFirst(l, r, path, what)
    ensures l != r
    decreases |path|
  {
    if path != [] {
      match path[0]
      case AtIndex(i) => FirstDiffers(l.items[i], r.items[i], path[1..], what);
      case AtKey(k) =>
        if k in l.fields && k in r.fields {
          FirstDiffers(l.fields[k], r.fields[k], path[1..], what);
        }
    }
  }

  lemma IndexDiffers(l: Value, r: Value, i: nat, tail: seq<Step>, what: What)
    requires l.Arr? && r.Arr? && i < |l.items| && i < |r.items| && IsFirst(l.items[i], r.items[i], tail, what)
    ensures l.items[i] != r.items[i]
  {
    FirstDiffers(l.items[i], r.items[i], tail, what);
  }

  lemma SameIndex(l: Value, r: Value, i: nat, j: nat)
    requires l.Arr? && r.Arr? && |l.items| == |r.items| && i < |l.items| && j < |l.items|
    requires l.items[..i] == r.items[..i] && l.items[i] != r.items[i]
    requires l.items[..j] == r.items[..j] && l.items[j] != r.items[j]
    ensures i == j
  {
    AgreesBefore(l, r, i, j);
    AgreesBefore(l, r, j, i);
  }

  lemma AgreesBefore(l: Value, r: Value, i: nat, j: nat)
    requires l.Arr? && r.Arr? && i < |l.items| == |r.items| && j < |l.items| && l.items[..j] == r.items[..j]
    ensures i < j ==> l.items[i] == r.items[i]
  {
    if i < j {
      assert l.items[..j][i] == r.items[..j][i];
    }
  }

  lemma KeyDiffers(l: Value, r: Value, k: string, tail: seq<Step>, what: What)
    requires IsFirst(l, r, [AtKey(k)] + tail, what)
    ensures l.Obj? && r.Obj? && !Agree(l, r, k)
  {
    var path := [AtKey(k)] + tail;
    assert path[0] == AtKey(k) && path[1..] == tail;
    if k in l.fields && k in r.fields {
      FirstDiffers(l.fields[k], r.fields[k], tail, what);
    }
  }

  // ---------------------------------------------------------------- JSON Pointer text

  function Replace(s: string, c: char, sub: string): string {
    if s == "" then "" else (if s[0] == c then sub else [s[0]]) + Replace(s[1..], c, sub)
  }

  /** Section 3 of RFC 6901: tilde first, then slash. */
  function Escape(key: string): string {
    Replace(Replace(key, '~', "~0"), '/', "~1")
  }

  function ReplacePair(s: string, c: char, d: char, sub: char): string {
    if |s| < 2 then s
    else if s[0] == c && s[1] == d then [sub] + ReplacePair(s[2..], c, d, sub)
    else [s[0]] + ReplacePair(s[1..], c, d, sub)
  }

  /** Section 4 of RFC 6901: slash first, then tilde. */
  function Unescape(token: string): string {
    ReplacePair(ReplacePair(token, '~', '1', '/'), '~', '0', '~')
  }

  function Digit(d: nat): char
    requires d < 10
  {
    ('0' as int + d) as char
  }

  function Decimal(n: nat): string {
    if n < 10 then [Digit(n)] else Decimal(n / 10) + [Digit(n % 10)]
  }

  predicate IsDigit(c: char) {
    '0' <= c <= '9'
  }

  /** An array index token: digits without a leading zero. */
  function ParseIndex(s: string): Option<nat> {
    if s == "" || (|s| > 1 && s[0] == '0') || exists k :: 0 <= k < |s| && !IsDigit(s[k]) then None
    else Some(DigitsValue(s))
  }

  function DigitsValue(s: string): nat
    requires forall k :: 0 <= k < |s| ==> IsDigit(s[k])
  {
    if s == "" then 0
    else
      assert IsDigit(s[|s| - 1]);
      DigitsValue(s[..|s| - 1]) * 10 + (s[|s| - 1] as int - '0' as int)
  }

  lemma {:induction false} DecimalParses(n: nat)
    ensures ParseIndex(Decimal(n)) == Some(n) && Decimal(n) != "" && (n > 0 ==> Decimal(n)[0] != '0')
    ensures forall k :: 0 <= k < |Decimal(n)| ==> IsDigit(Decimal(n)[k])
  {
    var s := Decimal(n);
    if n >= 10 {
      DecimalParses(n / 10);
      assert s[..|s| - 1] == Decimal(n / 10);
      assert DigitsValue(Decimal(n / 10)) == n / 10;
    } else {
      assert s[..0] == "";
    }
    assert s[|s| - 1] as int - '0' as int == n % 10;
    assert DigitsValue(s) == n;
  }

  function Token(step: Step): string {
    if step.AtIndex? then Decimal(step.i) else Escape(step.key)
  }

  /** What a token says once it is decoded. */
  function Plain(step: Step): string {
    if step.AtIndex? then Decimal(step.i) else step.key
  }

  function Render(path: seq<Step>): string {
    if path == [] then "" else "/" + Token(path[0]) + Render(path[1..])
  }

  function PathText(f: Found): string {
    Render(f.path) + (if f.what.Lengths? then "/length" else "")
  }

  predicate SlashFree(s: string) {
    forall k :: 0 <= k < |s| ==> s[k] != '/'
  }

  lemma {:induction false} ReplaceAppend(a: string, b: string, c: char, sub: string)
    ensures Replace(a + b, c, sub) == Replace(a, c, sub) + Replace(b, c, sub)
  {
    if a == "" {
      assert a + b == b;
    } else {
      ReplaceAppend(a[1..], b, c, sub);
      assert (a + b)[1..] == a[1..] + b;
    }
  }

  function EscapeChar(c: char): string {
    if c == '~' then "~0" else if c == '/' then "~1" else [c]
  }

  /** The two replacements together treat each character by itself. */
  lemma EscapeFirst(key: string)
    requires key != ""
    ensures Escape(key) == EscapeChar(key[0]) + Escape(key[1..])
  {
    var head := if key[0] == '~' then "~0" else [key[0]];
    var rest := Replace(key[1..], '~', "~0");
    ReplaceAppend(head, rest, '/', "~1");
    ReplaceFew(head);
  }

  lemma ReplaceFew(s: string)
    requires s == "~0" || |s| == 1
    ensures Replace(s, '/', "~1") == if s == "/" then "~1" else s
  {
    if s == "~0" {
      assert s[1..] == "0" && s[1..][1..] == "";
    } else {
      assert s[1..] == "" && s == [s[0]];
    }
  }

  lemma {:induction false} UnescapeSlashes(key: string)
    ensures ReplacePair(Escape(key), '~', '1', '/') == Replace(key, '~', "~0") && SlashFree(Escape(key))
  {
    if key != "" {
      var rest := key[1..];
      UnescapeSlashes(rest);
      EscapeFirst(key);
      hide Escape;
      var e := Escape(rest);
      if key[0] == '~' {
        AfterZero(e);
      } else if key[0] == '/' {
        assert ("~1" + e)[2..] == e;
      } else {
        AfterOther(key[0], e);
      }
    }
  }

  lemma AfterZero(s: string)
    ensures ReplacePair(['~', '0'] + s, '~', '1', '/') == ['~', '0'] + ReplacePair(s, '~', '1', '/')
  {
    var e := ['~', '0'] + s;
    assert e[1..] == ['0'] + s;
    AfterOther('0', s);
  }

  lemma AfterOther(c: char, s: string)
    requires c != '~'
    ensures ReplacePair([c] + s, '~', '1', '/') == [c] + ReplacePair(s, '~', '1', '/')
    ensures ReplacePair([c] + s, '~', '0', '~') == [c] + ReplacePair(s, '~', '0', '~')
  {
    var e := [c] + s;
    assert e[1..] == s;
  }

  lemma {:induction false} UnescapeTildes(key: string)
    ensures ReplacePair(Replace(key, '~', "~0"), '~', '0', '~') == key
  {
    if key != "" {
      var rest := key[1..];
      UnescapeTildes(rest);
      var t := Replace(rest, '~', "~0");
      if key[0] == '~' {
        var e := ['~', '0'] + t;
        assert Replace(key, '~', "~0") == e && e[2..] == t;
      } else {
        assert Replace(key, '~', "~0") == [key[0]] + t;
        AfterOther(key[0], t);
      }
      assert key == [key[0]] + rest;
    }
  }

  /** Decoding a token gives back the key or the index. */
  lemma TokenRoundTrip(step: Step)
    ensures Unescape(Token(step)) == Plain(step) && SlashFree(Token(step))
    ensures step.AtIndex? ==> ParseIndex(Plain(step)) == Some(step.i)
  {
    if step.AtKey? {
      UnescapeSlashes(step.key);
      UnescapeTildes(step.key);
    } else {
      DecimalParses(step.i);
      NothingToUnescape(Decimal(step.i), '1', '/');
      NothingToUnescape(Decimal(step.i), '0', '~');
    }
  }

  lemma {:induction false} NothingToUnescape(s: string, d: char, sub: char)
    requires forall k :: 0 <= k < |s| ==> s[k] != '~'
    ensures ReplacePair(s, '~', d, sub) == s
  {
    if |s| >= 2 {
      NothingToUnescape(s[1..], d, sub);
      assert s == [s[0]] + s[1..];
    }
  }

  // ---------------------------------------------------------------- following a JSON Pointer

  /** The text up to the next slash. */
  function Segment(s: string): (n: nat)
    ensures n <= |s|
  {
    if s == "" || s[0] == '/' then 0 else 1 + Segment(s[1..])
  }

  /** Section 4 of RFC 6901: a JSON Pointer is followed token by token; a missing member or index is an error. */
  function Resolve(v: Value, text: string): Option<Value>
    decreases |text|
  {
    if text == "" then Some(v)
    else if text[0] != '/' then None
    else
      var body := text[1..];
      var n := Segment(body);
      var child := Child(v, Unescape(body[..n]));
      if child.None? then None else Resolve(child.value, body[n..])
  }

  function Child(v: Value, token: string): Option<Value> {
    match v
    case Obj(fields) => if token in fields then Some(fields[token]) else None
    case Arr(items) =>
      var i := ParseIndex(token);
      if i.Some? && i.value < |items| then Some(items[i.value]) else None
    case _ => None
  }

  lemma {:induction false} SegmentIs(token: string, rest: string)
    requires SlashFree(token) && (rest == "" || rest[0] == '/')
    ensures Segment(token + rest) == |token|
  {
    if token == "" {
      assert token + rest == rest;
    } else {
      SegmentIs(token[1..], rest);
      assert (token + rest)[1..] == token[1..] + rest;
    }
  }

  lemma ResolveStep(v: Value, step: Step, rest: seq<Step>)
    ensures Resolve(v, Render([step] + rest))
            == var child := Child(v, Plain(step)); if child.None? then None else Resolve(child.value, Render(rest))
  {
    hide Token, Unescape, Child;
    var path := [step] + rest;
    assert path[0] == step && path[1..] == rest;
    TokenRoundTrip(step);
    var tail := Render(rest);
    var text := Render(path);
    var body := Token(step) + tail;
    assert text == "/" + body && text[1..] == body;
    SegmentIs(Token(step), tail);
    assert body[..|Token(step)|] == Token(step) && body[|Token(step)|..] == tail;
  }

  /** What a decoded JSON Pointer finds in the two documents, at the first difference. */
  ghost predicate Points(l: Value, r: Value, text: string, what: What) {
    match what
    case Differing(x, y) => Resolve(l, text) == Some(x) && Resolve(r, text) == Some(y)
    case OnlyLeft(x) => Resolve(l, text) == Some(x) && Resolve(r, text) == None
    case OnlyRight(y) => Resolve(l, text) == None && Resolve(r, text) == Some(y)
    case Lengths(m, n) =>
      && Resolve(l, text).Some? && Resolve(l, text).value.Arr? && |Resolve(l, text).value.items| == m
      && Resolve(r, text).Some? && Resolve(r, text).value.Arr? && |Resolve(r, text).value.items| == n
  }

  /** The path text leads, in both documents, to the place of the first difference. */
  lemma {:induction false} PathLeads(l: Value, r: Value, path: seq<Step>, what: What)
    requires IsFirst(l, r, path, what)
    ensures Points(l, r, Render(path), what)
    decreases |path|
  {
    if path != [] {
      var step, rest := path[0], path[1..];
      assert path == [step] + rest;
      ResolveStep(l, step, rest);
      ResolveStep(r, step, rest);
      TokenRoundTrip(step);
      hide Resolve, Unescape, Token, ParseIndex;
      match step
      case AtIndex(i) => PathLeads(l.items[i], r.items[i], rest, what);
      case AtKey(k) =>
        if k in l.fields && k in r.fields {
          PathLeads(l.fields[k], r.fields[k], rest, what);
        } else {
          assert rest == [];
          ResolveEmpty(if k in l.fields then l.fields[k] else r.fields[k]);
        }
    }
  }

  lemma ResolveEmpty(v: Value)
    ensures Resolve(v, Render([])) == Some(v)
  {
  }

  // ---------------------------------------------------------------- the walk itself

  /** The path buffer shared by the whole walk. */
  class PathBuffer {
    var text: string

    constructor ()
      ensures text == ""
    {
      text := "";
    }

    method Push(s: string)
      modifies this
      ensures text == old(text) + s
    {
      text := text + s;
    }

    method Truncate(n: nat)
      requires n <= |text|
      modifies this
      ensures text == old(text)[..n]
    {
      text := text[..n];
    }
  }

  datatype Difference = Difference(path: string, what: What)

  /** The difference reported when the walk below started with `prefix` in its buffer. */
  function Reported(prefix: string, f: Option<Found>): Option<Difference> {
    if f.None? then None else Some(Difference(prefix + PathText(f.value), f.value.what))
  }

  lemma Regroup(a: string, b: string, t: string, c: string, d: string)
    ensures a + ((b + t + c) + d) == (a + b + t) + (c + d)
  {
    AppendAssociates(b + t, c, d);
    AppendAssociates(a, b + t, c + d);
    AppendAssociates(a, b, t);
  }

  lemma ReportedUnder(prefix: string, step: Step, f: Option<Found>)
    ensures Reported(prefix, Under(step, f)) == Reported(prefix + "/" + Token(step), f)
  {
    hide Token;
    if f.Some? {
      var path := [step] + f.value.path;
      assert path[0] == step && path[1..] == f.value.path;
      Regroup(prefix, "/", Token(step), Render(f.value.path), if f.value.what.Lengths? then "/length" else "");
    }
  }

  /** The walk reports the first difference under the buffer's path, and leaves the buffer as it was if there is none. */
  method Visit(l: Value, r: Value, path: PathBuffer) returns (d: Option<Difference>)
    modifies path
    ensures d == Reported(old(path.text), FirstDiff(l, r))
    ensures d.None? ==> path.text == old(path.text)
    decreases l, 1, 0
  {
    hide PathText, Token;
    if l.Arr? && r.Arr? {
      d := VisitItems(l, r, path);
    } else if l.Obj? && r.Obj? {
      d := VisitKeys(l, r, path);
    } else if l != r {
      LocalText(path.text, Differing(l, r));
      return Some(Difference(path.text, Differing(l, r)));
    } else {
      return None;
    }
  }

  lemma LocalText(prefix: string, what: What)
    ensures Reported(prefix, Some(Found([], what)))
            == Some(Difference(prefix + (if what.Lengths? then "/length" else ""), what))
    ensures prefix + "" == prefix
  {
    var suffix := if what.Lengths? then "/length" else "";
    assert "" + suffix == suffix;
  }

  method VisitItems(l: Value, r: Value, path: PathBuffer) returns (d: Option<Difference>)
    requires l.Arr? && r.Arr?
    modifies path
    ensures d == Reported(old(path.text), FirstDiff(l, r))
    ensures d.None? ==> path.text == old(path.text)
    decreases l, 0, 0
  {
    hide PathText, Reported;
    if |l.items| != |r.items| {
      LocalText(path.text, Lengths(|l.items|, |r.items|));
      path.Push("/length");
      return Some(Difference(path.text, Lengths(|l.items|, |r.items|)));
    }
    for i := 0 to |l.items|
      invariant path.text == old(path.text) && FirstDiff(l, r) == DiffFrom(l, r, i)
    {
      var original := |path.text|;
      path.Push("/");
      path.Push(Decimal(i));
      ReportedUnder(old(path.text), AtIndex(i), FirstDiff(l.items[i], r.items[i]));
      d := Visit(l.items[i], r.items[i], path);
      NothingReported(old(path.text) + "/" + Decimal(i), FirstDiff(l.items[i], r.items[i]));
      if d.Some? {
        return;
      }
      path.Truncate(original);
    }
    NothingReported(old(path.text), None);
    d := None;
  }

  lemma NothingReported(prefix: string, f: Option<Found>)
    ensures Reported(prefix, f).None? <==> f.None?
  {
  }

  method VisitKeys(l: Value, r: Value, path: PathBuffer) returns (d: Option<Difference>)
    requires l.Obj? && r.Obj?
    modifies path
    ensures d == Reported(old(path.text), FirstDiff(l, r))
    ensures d.None? ==> path.text == old(path.text)
    decreases l, 0, 0
  {
    hide PathText, Reported, Escape, SortedKeys, Decimal;
    var keys := ListKeys(l.fields.Keys + r.fields.Keys);
    assert keys[0..] == keys;
    for i := 0 to |keys|
      invariant path.text == old(path.text) && FirstDiff(l, r) == DiffKeys(l, r, keys[i..])
    {
      var key := keys[i];
      assert keys[i..][0] == key && keys[i..][1..] == keys[i + 1..];
      var original := |path.text|;
      path.Push("/");
      path.Push(Escape(key));
      var here := path.text;
      if key in l.fields && key in r.fields {
        ReportedUnder(old(path.text), AtKey(key), FirstDiff(l.fields[key], r.fields[key]));
        d := Visit(l.fields[key], r.fields[key], path);
        NothingReported(here, FirstDiff(l.fields[key], r.fields[key]));
        if d.Some? {
          return;
        }
        path.Truncate(original);
      } else {
        assert key in keys;
        var what := if key in l.fields then OnlyLeft(l.fields[key]) else OnlyRight(r.fields[key]);
        ReportedUnder(old(path.text), AtKey(key), Some(Found([], what)));
        assert [AtKey(key)] + [] == [AtKey(key)];
        LocalText(here, what);
        return Some(Difference(here, what));
      }
    }
    NothingReported(old(path.text), None);
    d := None;
  }

  /** No difference exactly for equal documents; otherwise the path leads to the first place where they differ. */
  method FirstDifference(l: Value, r: Value) returns (d: Option<Difference>)
    ensures d.None? <==> l == r
    ensures d.Some? ==> exists path :: && IsFirst(l, r, path, d.value.what) && Points(l, r, Render(path), d.value.what)
                                       && d.value.path == Render(path) + (if d.value.what.Lengths? then "/length" else "")
  {
    hide FirstDiff, Render, IsFirst, Points;
    var path := new PathBuffer();
    d := Visit(l, r, path);
    NoneIffEqual(l, r);
    if d.Some? {
      FoundIsFirst(l, r);
      var f := FirstDiff(l, r).value;
      PathLeads(l, r, f.path, f.what);
      assert d.value.path == "" + PathText(f);
    }
  }
}
