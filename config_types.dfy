/** The value predicates of `src/config/types.ts`. `new URL(value)` is the
    parameter `parses`: whether the platform's URL parser accepts a string. */
module ConfigTypes {
  import opened Strings

  /** `isNonEmptyString` */
  predicate IsNonEmptyString(v: string) {
    |v| > 0
  }

  /** `isValidUrl`: a path starting with "/" is accepted as it is; anything
      else must parse as an absolute URL. */
  predicate IsValidUrl(v: string, parses: string -> bool) {
    StartsWith(v, "/") || parses(v)
  }

  /** Every "/"-path is accepted whatever it holds, and every other string
      exactly when the URL parser accepts it. */
  lemma UrlVerdict(v: string, parses: string -> bool)
    ensures |v| > 0 && v[0] == '/' ==> IsValidUrl(v, parses)
    ensures !(|v| > 0 && v[0] == '/') ==> (IsValidUrl(v, parses) <==> parses(v))
  {
    if |v| > 0 && v[0] == '/' {
      assert v[..1] == "/";
    }
  }

  /** `[^\s@]` */
  predicate EmailChar(c: char) {
    !IsWhitespace(c) && c != '@'
  }

  predicate AllEmailChars(s: string) {
    forall i | 0 <= i < |s| :: EmailChar(s[i])
  }

  /** Lower-case ASCII letters are address characters. */
  lemma LowercaseEmailChars(s: string)
    requires forall i | 0 <= i < |s| :: 'a' <= s[i] <= 'z'
    ensures AllEmailChars(s)
  {
  }

  /** `/^[^\s@]+@[^\s@]+\.[^\s@]+$/.test(v)`: a non-empty local part without
      "@" or whitespace, one "@", and a domain without "@" or whitespace
      holding a "." that is neither its first nor its last character. */
  predicate IsValidEmail(v: string) {
    var local := TakeUntil(v, '@');
    |local| > 0 && |local| < |v| && AllEmailChars(local)
    && var domain := v[|local| + 1..];
       AllEmailChars(domain) && |domain| >= 3 && '.' in domain[1..|domain| - 1]
  }

  /** The shape the pattern describes: `l@x.y` with `l`, `x`, `y` non-empty
      runs of `[^\s@]` (the dot may be any interior dot of the domain). */
  ghost predicate EmailParts(v: string, l: string, x: string, y: string) {
    |l| > 0 && |x| > 0 && |y| > 0 && AllEmailChars(l) && AllEmailChars(x) && AllEmailChars(y)
    && v == l + "@" + x + "." + y
  }

  /** Every accepted address splits as the pattern describes. */
  lemma EmailSplit(v: string) returns (l: string, x: string, y: string)
    requires IsValidEmail(v)
    ensures EmailParts(v, l, x, y)
  {
    l := TakeUntil(v, '@');
    var d := v[|l| + 1..];
    var k :| 0 <= k < |d[1..|d| - 1]| && d[1..|d| - 1][k] == '.';
    var i := k + 1;
    x, y := d[..i], d[i + 1..];
    assert d == x + "." + y;
    assert v == l + "@" + d by {
      assert v == v[..|l|] + [v[|l|]] + v[|l| + 1..];
    }
    assert forall j | 0 <= j < |x| :: x[j] == d[j];
    assert forall j | 0 <= j < |y| :: y[j] == d[i + 1 + j];
  }

  /** Every string of that shape is accepted. */
  lemma EmailJoin(v: string, l: string, x: string, y: string)
    requires EmailParts(v, l, x, y)
    ensures IsValidEmail(v)
  {
    var rest := "@" + x + "." + y;
    assert v == l + rest;
    assert '@' !in l;
    TakeUntilConcat(l, rest, '@');
    var d := v[|l| + 1..];
    assert d == x + "." + y;
    forall j | 0 <= j < |d| ensures EmailChar(d[j]) {
      if j < |x| {
        assert d[j] == x[j];
      } else if j > |x| {
        assert d[j] == y[j - |x| - 1];
      }
    }
    assert d[1..|d| - 1][|x| - 1] == '.';
  }

  /** The predicate accepts exactly the strings of the pattern's shape. */
  lemma EmailIff(v: string)
    ensures IsValidEmail(v) <==> exists l, x, y :: EmailParts(v, l, x, y)
  {
    if IsValidEmail(v) {
      var l, x, y := EmailSplit(v);
    }
    if exists l, x, y :: EmailParts(v, l, x, y) {
      var l, x, y :| EmailParts(v, l, x, y);
      EmailJoin(v, l, x, y);
    }
  }
}
