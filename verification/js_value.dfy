/**
 * The JavaScript values that the handlers receive, store and return, and the
 * handful of built-ins they apply to them: truthiness, `||`, property reads,
 * `JSON.stringify`, template-literal text and `String.prototype.trim`.
 */
module JsValue {

  datatype Option<+T> = None | Some(value: T)

  /** An operation that either yields a value or throws an error with a message. */
  datatype Result<+T, +E> = Success(value: T) | Failure(error: E) {
    predicate IsFailure() { Failure? }
    function PropagateFailure<U>(): Result<U, E>
      requires Failure?
    {
      Failure(error)
    }
    function Extract(): T
      requires Success?
    {
      value
    }
  }

  /**
   * A JavaScript value as it appears in a JSON body or a stored record.
   * Numbers are integers; an object is a map from property names to values.
   */
  datatype Value =
    | Undefined
    | Null
    | Bool(b: bool)
    | Num(n: int)
    | Str(s: string)
    | Arr(items: seq<Value>)
    | Obj(fields: map<string, Value>)

  /** A thrown JavaScript error: the name of its constructor and its message. */
  datatype JsError = JsError(name: string, message: string)

  /** `new Error(message)` */
  function Raise(message: string): JsError {
    JsError("Error", message)
  }

  /** The TypeError thrown when a property of `null` or `undefined` is read. */
  function ReadError(v: Value, key: string): JsError {
    JsError("TypeError", "Cannot read properties of " + (if v.Null? then "null" else "undefined") + " (reading '" + key + "')")
  }

  /**
   * `JSON.parse`, left uninterpreted: the value a text denotes, or the message
   * of the SyntaxError it throws.
   */
  type Parser = string -> Result<Value, string>

  function Parse(parse: Parser, text: string): (r: Result<Value, JsError>)
    ensures r.Failure? ==> r.error.name == "SyntaxError"
  {
    match parse(text)
    case Success(v) => Success(v)
    case Failure(m) => Failure(JsError("SyntaxError", m))
  }

  /** JavaScript truthiness: `undefined`, `null`, `false`, `0` and `''` are falsy. */
  predicate Truthy(v: Value) {
    match v
    case Undefined => false
    case Null => false
    case Bool(b) => b
    case Num(n) => n != 0
    case Str(s) => s != ""
    case _ => true
  }

  /** `a || b` */
  function Or(a: Value, b: Value): Value {
    if Truthy(a) then a else b
  }

  /** Reading a property of `null` or `undefined` throws a TypeError. */
  predicate Readable(v: Value) {
    !v.Undefined? && !v.Null?
  }

  /** `v[key]` on a readable value: only objects have named fields. */
  function Get(v: Value, key: string): Value {
    if v.Obj? && key in v.fields then v.fields[key] else Undefined
  }

  /** `a || b || c` over the three named fields of `v`, the defensive multi-name extraction. */
  function FirstTruthyField(v: Value, a: string, b: string, c: string): (r: Value)
    ensures Truthy(Get(v, a)) ==> r == Get(v, a)
    ensures !Truthy(Get(v, a)) && Truthy(Get(v, b)) ==> r == Get(v, b)
    ensures !Truthy(Get(v, a)) && !Truthy(Get(v, b)) ==> r == Get(v, c)
    ensures Truthy(r) <==> Truthy(Get(v, a)) || Truthy(Get(v, b)) || Truthy(Get(v, c))
  {
    Or(Or(Get(v, a), Get(v, b)), Get(v, c))
  }

  function Digit(d: nat): (c: char)
    requires d < 10
    ensures '0' <= c <= '9'
  {
    ('0' as int + d) as char
  }

  predicate IsDigit(c: char) { '0' <= c <= '9' }

  /** Decimal text of a natural number, as `String(n)` writes it. */
  function NatText(n: nat): (r: string)
    ensures r != ""
    ensures forall k :: 0 <= k < |r| ==> IsDigit(r[k])
  {
    if n < 10 then [Digit(n)] else NatText(n / 10) + [Digit(n % 10)]
  }

  function IntText(n: int): (r: string)
    ensures r != ""
  {
    if n < 0 then "-" + NatText(-n) else NatText(n)
  }

  /**
   * `JSON.stringify(v, null, 2)`: `undefined` for `undefined`, a non-empty text for
   * every other value. Indentation and string escaping are not reproduced, and
   * object members come in key order rather than insertion order.
   */
  function JsonText(v: Value): (r: Option<string>)
    ensures v.Undefined? <==> r.None?
    ensures r.Some? ==> r.value != ""
    ensures v.Null? ==> r == Some("null")
    decreases v
  {
    match v
    case Undefined => None
    case Null => Some("null")
    case Bool(b) => Some(if b then "true" else "false")
    case Num(n) => Some(IntText(n))
    case Str(s) => Some("\"" + s + "\"")
    case Arr(items) => Some("[" + ItemsText(v, 0) + "]")
    case Obj(fields) => Some("{" + MembersText(v, fields.Keys) + "}")
  }

  function ItemsText(v: Value, i: nat): string
    requires v.Arr? && i <= |v.items|
    decreases v, |v.items| - i
  {
    if i == |v.items| then ""
    else
      var item := match JsonText(v.items[i]) case Some(t) => t case None => "null";
      (if i == 0 then "" else ",") + item + ItemsText(v, i + 1)
  }

  /** The members of an object, those with key in `keys`, in increasing key order; `undefined` members are dropped. */
  function MembersText(v: Value, keys: set<string>): string
    requires v.Obj? && keys <= v.fields.Keys
    decreases v, |keys|
  {
    if keys == {} then ""
    else
      var k := Least(keys);
      var rest := MembersText(v, keys - {k});
      assert v.fields[k] in v.fields.Values;
      match JsonText(v.fields[k])
      case None => rest
      case Some(t) => "\"" + k + "\":" + t + (if rest == "" then "" else ",") + rest
  }

  /** Code-point order on property names, the order in which objects are rendered. */
  predicate Below(a: string, b: string) {
    a == [] || (b != [] && (a[0] < b[0] || (a[0] == b[0] && Below(a[1..], b[1..]))))
  }

  lemma {:induction false} BelowReflexive(a: string)
    ensures Below(a, a)
  {
    if a != [] {
      BelowReflexive(a[1..]);
    }
  }

  lemma {:induction false} BelowAntisymmetric(a: string, b: string)
    requires Below(a, b) && Below(b, a)
    ensures a == b
  {
    if a != [] && b != [] {
      BelowAntisymmetric(a[1..], b[1..]);
      assert a == [a[0]] + a[1..];
      assert b == [b[0]] + b[1..];
    }
  }

  lemma {:induction false} BelowTotal(a: string, b: string)
    ensures Below(a, b) || Below(b, a)
  {
    if a != [] && b != [] && a[0] == b[0] {
      BelowTotal(a[1..], b[1..]);
    }
  }

  lemma {:induction false} BelowTransitive(a: string, b: string, c: string)
    requires Below(a, b) && Below(b, c)
    ensures Below(a, c)
  {
    if a != [] && b != [] && c != [] && a[0] == b[0] && b[0] == c[0] {
      BelowTransitive(a[1..], b[1..], c[1..]);
    }
  }

  /** `k` is a name of `s` that no other name of `s` precedes. */
  predicate IsLeast(k: string, s: set<string>) {
    k in s && forall j :: j in s ==> Below(k, j)
  }

  lemma {:induction false} LeastExists(s: set<string>)
    requires s != {}
    ensures exists k :: IsLeast(k, s)
    decreases |s|
  {
    var x :| x in s;
    var rest := s - {x};
    BelowReflexive(x);
    if rest == {} {
      assert s == {x};
      assert IsLeast(x, s);
    } else {
      LeastExists(rest);
      var k :| IsLeast(k, rest);
      BelowTotal(k, x);
      var m := if Below(k, x) then k else x;
      forall j | j in s
        ensures Below(m, j)
      {
        if j != x && m == x {
          BelowTransitive(x, k, j);
        }
      }
      assert IsLeast(m, s);
    }
  }

  /** The least name of a non-empty set of property names. */
  function Least(s: set<string>): (k: string)
    requires s != {}
    ensures IsLeast(k, s)
  {
    LeastExists(s);
    var k :| IsLeast(k, s);
    assert forall k' :: IsLeast(k', s) ==> k' == k by {
      forall k' | IsLeast(k', s)
        ensures k' == k
      {
        BelowAntisymmetric(k, k');
      }
    }
    k
  }

  /** `JSON.stringify(v, null, 2)` as a JavaScript value: a string, or `undefined`. */
  function Stringify(v: Value): (r: Value)
    ensures v.Undefined? ==> r == Undefined
    ensures !v.Undefined? ==> r.Str? && Truthy(r)
    ensures v.Null? ==> r == Str("null")
  {
    match JsonText(v) case Some(t) => Str(t) case None => Undefined
  }

  /** The text a template literal `${v}` inserts. */
  function TemplateText(v: Value): string
    decreases v
  {
    match v
    case Undefined => "undefined"
    case Null => "null"
    case Bool(b) => if b then "true" else "false"
    case Num(n) => IntText(n)
    case Str(s) => s
    case Arr(_) => JoinedText(v, 0)
    case Obj(_) => "[object Object]"
  }

  /** `Array.prototype.join(',')`, which writes `null` and `undefined` items as empty text. */
  function JoinedText(v: Value, i: nat): string
    requires v.Arr? && i <= |v.items|
    decreases v, |v.items| - i
  {
    if i == |v.items| then ""
    else
      var item := if Readable(v.items[i]) then TemplateText(v.items[i]) else "";
      (if i == 0 then "" else ",") + item + JoinedText(v, i + 1)
  }

  /** The characters `String.prototype.trim` removes (ECMAScript WhiteSpace and LineTerminator). */
  predicate IsSpace(c: char) {
    var k := c as int;
    k == 0x20 || (0x09 <= k <= 0x0D) || k == 0xA0 || k == 0x1680 || (0x2000 <= k <= 0x200A)
    || k == 0x2028 || k == 0x2029 || k == 0x202F || k == 0x205F || k == 0x3000 || k == 0xFEFF
  }

  predicate Blank(s: string) {
    forall k :: 0 <= k < |s| ==> IsSpace(s[k])
  }

  function TrimStart(s: string): (r: string)
    ensures |r| <= |s| && r == s[|s| - |r|..]
    ensures forall k :: 0 <= k < |s| - |r| ==> IsSpace(s[k])
    ensures r != "" ==> !IsSpace(r[0])
  {
    if s != "" && IsSpace(s[0]) then
      var r := TrimStart(s[1..]);
      assert forall k :: 1 <= k < |s| ==> s[k] == s[1..][k - 1];
      r
    else s
  }

  function TrimEnd(s: string): (r: string)
    ensures |r| <= |s| && r == s[..|r|]
    ensures forall k :: |r| <= k < |s| ==> IsSpace(s[k])
    ensures r != "" ==> !IsSpace(r[|r| - 1])
  {
    if s != "" && IsSpace(s[|s| - 1]) then
      var r := TrimEnd(s[..|s| - 1]);
      assert forall k :: 0 <= k < |s| - 1 ==> s[k] == s[..|s| - 1][k];
      r
    else s
  }

  /** Whether JavaScript stores `c` as a surrogate pair: it lies beyond the Basic Multilingual Plane. */
  predicate Astral(c: char) {
    c as int >= 0x1_0000
  }

  /**
   * `s.length`: JavaScript counts UTF-16 code units, so every character
   * beyond the Basic Multilingual Plane counts twice.
   */
  function Utf16Length(s: string): (n: nat)
    ensures |s| <= n <= 2 * |s|
  {
    if s == [] then 0 else Utf16Length(s[..|s| - 1]) + (if Astral(s[|s| - 1]) then 2 else 1)
  }

  /** The code-unit length equals the number of characters exactly when none of them is astral. */
  lemma {:induction false} Utf16LengthPlain(s: string)
    ensures Utf16Length(s) == |s| <==> forall k :: 0 <= k < |s| ==> !Astral(s[k])
  {
    if s != [] {
      var front := s[..|s| - 1];
      Utf16LengthPlain(front);
      assert forall k :: 0 <= k < |front| ==> front[k] == s[k];
    }
  }

  /** The code-unit length of a concatenation is the sum of the lengths. */
  lemma {:induction false} Utf16LengthAppend(a: string, b: string)
    ensures Utf16Length(a + b) == Utf16Length(a) + Utf16Length(b)
    decreases |b|
  {
    if b == [] {
      assert a + b == a;
    } else {
      var front := b[..|b| - 1];
      assert (a + b)[..|a + b| - 1] == a + front;
      Utf16LengthAppend(a, front);
    }
  }

  /** A text holding one astral character counts one more code unit than it has characters. */
  lemma Utf16LengthOfEmoji()
    ensures |"a\U{1F600}"| == 2 && Utf16Length("a\U{1F600}") == 3
  {
    assert "a\U{1F600}"[..1] == "a";
  }

  /** `s.trim()` */
  function Trim(s: string): string {
    TrimEnd(TrimStart(s))
  }

  /** Where the trimmed text starts in `s`. */
  function TrimOffset(s: string): (i: nat)
    ensures i + |Trim(s)| <= |s|
  {
    |s| - |TrimStart(s)|
  }

  /** The trimmed text is the part of `s` at its offset. */
  lemma TrimInside(s: string)
    ensures Trim(s) == s[TrimOffset(s)..TrimOffset(s) + |Trim(s)|]
  {
    var t := TrimStart(s);
    assert t == s[TrimOffset(s)..];
    assert t[..|Trim(s)|] == s[TrimOffset(s)..TrimOffset(s) + |Trim(s)|];
  }

  /** What trimming cuts off after the kept text is white space. */
  lemma TrimTail(s: string)
    ensures forall k :: TrimOffset(s) + |Trim(s)| <= k < |s| ==> IsSpace(s[k])
  {
    var t := TrimStart(s);
    var r := TrimEnd(t);
    var i := |s| - |t|;
    assert t == s[i..];
    forall k | i + |r| <= k < |s|
      ensures IsSpace(s[k])
    {
      assert IsSpace(t[k - i]);
      assert s[k] == t[k - i];
    }
  }

  /**
   * What trimming removes and keeps: the result is a contiguous part of `s`
   * with no white space at either end, everything cut off is white space,
   * and it is empty exactly when `s` is blank.
   */
  lemma TrimSpec(s: string)
    ensures var r := Trim(s);
      exists i :: 0 <= i <= |s| - |r| && r == s[i..i + |r|] && Blank(s[..i]) && Blank(s[i + |r|..])
    ensures Trim(s) != "" ==> !IsSpace(Trim(s)[0]) && !IsSpace(Trim(s)[|Trim(s)| - 1])
    ensures Trim(s) == "" <==> Blank(s)
  {
    var r := Trim(s);
    var i := TrimOffset(s);
    TrimInside(s);
    TrimTail(s);
    assert Blank(s[..i]);
    assert Blank(s[i + |r|..]);
    if r != "" {
      assert s[i] == r[0];
    }
  }

  /** Trimming trimmed text changes nothing. */
  lemma TrimIdempotent(s: string)
    ensures Trim(Trim(s)) == Trim(s)
  {
    var r := Trim(s);
    TrimSpec(s);
    assert TrimStart(r) == r;
    assert TrimEnd(r) == r;
  }

  /** The request-body check every job-starting handler makes: `!input || typeof input !== 'string' || input.trim() === ''`. */
  predicate ValidInput(input: Value) {
    input.Str? && Trim(input.s) != ""
  }

  lemma ValidInputMeansVisibleText(input: Value)
    ensures ValidInput(input) <==> input.Str? && !Blank(input.s)
  {
    if input.Str? {
      TrimSpec(input.s);
    }
  }
}
