/**
 * normalizeFilter: turning one filter item (string, object with `test`,
 * boolean or function) into a predicate over module or asset identifiers.
 *
 * A string item is compiled into the regular expression
 *   [\\/] <item with every syntax character escaped> ([\\/]|$|!|\?)
 * and the predicate is that expression's `test`. The model follows the same
 * two steps: `EscapeRegExp` is the escaping `replace`, `ReadLiteral` is how
 * the regular expression reads the escaped text back (every atom a literal
 * character), and `Scan` is `test` trying each start position in turn.
 */
module Filters {
  import opened Wrappers
  import opened Values

  /**
   * Characters the escaping `replace` prefixes with a backslash: - [ ] { } ( ) * + ? . \ ^ $ |
   * This holds every JavaScript SyntaxCharacter (^ $ \ . * + ? ( ) [ ] { } |) plus `-`, so the
   * reader below, which takes every other character as itself, reads RegExp literals correctly.
   */
  predicate IsSyntaxChar(c: char) {
    c in "-[]{}()*+?.\\^$|"
  }

  /** The class `[\\/]`. */
  predicate IsPathSeparator(c: char) {
    c == '/' || c == '\\'
  }

  /** What may follow the literal: `[\\/]`, `!` or `\?` (end of input is handled apart). */
  predicate IsSegmentEnd(c: char) {
    IsPathSeparator(c) || c == '!' || c == '?'
  }

  /**
   * `lit` occurs in `ident` right after the separator at position `p`, and is
   * followed by the end of `ident` or by a segment end.
   */
  predicate MatchesAt(lit: string, ident: string, p: int) {
    && 0 <= p
    && p + 1 + |lit| <= |ident|
    && IsPathSeparator(ident[p])
    && ident[p + 1 .. p + 1 + |lit|] == lit
    && (p + 1 + |lit| == |ident| || IsSegmentEnd(ident[p + 1 + |lit|]))
  }

  /** The meaning of a string filter: a path-segment-bounded occurrence of `lit`. */
  predicate SegmentMatch(lit: string, ident: string) {
    exists p | 0 <= p < |ident| :: MatchesAt(lit, ident, p)
  }

  /** `item.replace(/[-[\]{}()*+?.\\^$|]/g, "\\$&")` */
  function EscapeRegExp(s: string): (r: string)
    ensures |s| <= |r| <= 2 * |s|
  {
    if |s| == 0 then ""
    else (if IsSyntaxChar(s[0]) then ['\\', s[0]] else [s[0]]) + EscapeRegExp(s[1..])
  }

  /**
   * Reads a pattern body whose every atom is a literal: a character that is
   * not a syntax character, or a backslash followed by a syntax character
   * (an identity escape). Any other body is not a plain literal: `None`.
   */
  function ReadLiteral(body: string): (r: Option<string>)
    ensures r.Some? ==> |r.value| <= |body|
  {
    if |body| == 0 then Some("")
    else if body[0] == '\\' then
      if |body| >= 2 && IsSyntaxChar(body[1]) then
        match ReadLiteral(body[2..])
        case Some(rest) => Some([body[1]] + rest)
        case None => None
      else None
    else if IsSyntaxChar(body[0]) then None
    else
      match ReadLiteral(body[1..])
      case Some(rest) => Some([body[0]] + rest)
      case None => None
  }

  /** The escaped text reads back as exactly the original string: every syntax character was escaped. */
  lemma {:induction false} ReadLiteralOfEscape(s: string)
    ensures ReadLiteral(EscapeRegExp(s)) == Some(s)
  {
    if |s| > 0 {
      ReadLiteralOfEscape(s[1..]);
      var e := EscapeRegExp(s);
      if IsSyntaxChar(s[0]) {
        assert e == ['\\', s[0]] + EscapeRegExp(s[1..]);
        assert e[2..] == EscapeRegExp(s[1..]);
      } else {
        assert e == [s[0]] + EscapeRegExp(s[1..]);
        assert e[1..] == EscapeRegExp(s[1..]);
      }
      assert [s[0]] + s[1..] == s;
    }
  }

  /** `regExp.test(ident)`: tries start positions `from`, `from + 1`, … in turn. */
  function Scan(lit: string, ident: string, from: nat): (r: bool)
    ensures r <==> exists p | from <= p < |ident| :: MatchesAt(lit, ident, p)
    decreases |ident| - from
  {
    if from >= |ident| then false
    else MatchesAt(lit, ident, from) || Scan(lit, ident, from + 1)
  }

  /** The predicate a string filter compiles to, applied to one identifier. */
  function CompiledStringTest(item: string, ident: string): (r: bool)
    ensures r <==> SegmentMatch(item, ident)
  {
    ReadLiteralOfEscape(item);
    var lit := ReadLiteral(EscapeRegExp(item)).value;
    Scan(lit, ident, 0)
  }

  /**
   * The behaviour of the opaque parts: `test` of RegExp and other objects,
   * and user callbacks, called with one identifier or with a warning and its
   * rendered text.
   */
  datatype Oracle = Oracle(
    objectTest: (Obj, string) -> bool,
    callFilter: (nat, string) -> bool,
    callWarning: (nat, nat, string) -> bool)

  /**
   * Calls a function as a module, asset or logging filter: with one identifier.
   * The two warning closures read a second argument that this call does not
   * pass; the normalizers never put them on these keys, and they are taken not
   * to match.
   */
  predicate FilterHolds(f: Func, ident: string, env: Oracle) {
    match f
    case UserFunction(id) => env.callFilter(id, ident)
    case SegmentTest(item) => CompiledStringTest(item, ident)
    case DelegateTest(obj) => env.objectTest(obj, ident)
    case Constant(b) => b
    case TextIncludes(_) => false
    case TextRegExpTest(_) => false
  }

  /** normalizeFilter */
  function NormalizeFilter(item: Value): (r: Value)
    ensures item.Str? ==> (r.Function? &&
      forall ident, env :: FilterHolds(r.fn, ident, env) <==> SegmentMatch(item.s, ident))
    ensures item.Object? && item.obj.HasTest() ==> (r.Function? &&
      forall ident, env :: FilterHolds(r.fn, ident, env) == env.objectTest(item.obj, ident))
    ensures item.Bool? ==> (r.Function? &&
      forall ident, env :: FilterHolds(r.fn, ident, env) == item.b)
    ensures !(item.Str? || (item.Object? && item.obj.HasTest()) || item.Bool?) ==> r == item
  {
    match item
    case Str(s) => Function(SegmentTest(s))
    case Object(obj) => if obj.HasTest() then Function(DelegateTest(obj)) else item
    case Bool(b) => Function(Constant(b))
    case _ => item
  }

  /** Every result of normalizeFilter is left unchanged by it. */
  lemma NormalizeFilterIdempotent(item: Value)
    ensures NormalizeFilter(NormalizeFilter(item)) == NormalizeFilter(item)
  {
  }

  /** The boundary examples: "foo" matches a whole segment, not part of "foofoo". */
  lemma SegmentMatchExamples()
    ensures SegmentMatch("foo", "/path/foo/index.js")
    ensures !SegmentMatch("foo", "/path/foofoo/index.js")
    ensures SegmentMatch("foo", "\\path\\foo")
    ensures SegmentMatch("foo", "/path/foo?query")
  {
    var yes := "/path/foo/index.js";
    assert MatchesAt("foo", yes, 5) by { assert yes[6..9] == "foo"; }
    assert MatchesAt("foo", "\\path\\foo", 5) by { assert "\\path\\foo"[6..9] == "foo"; }
    assert MatchesAt("foo", "/path/foo?query", 5) by { assert "/path/foo?query"[6..9] == "foo"; }
    var no := "/path/foofoo/index.js";
    forall p | 0 <= p < |no|
      ensures !MatchesAt("foo", no, p)
    {
      if IsPathSeparator(no[p]) {
        assert p == 0 || p == 5 || p == 12;
        if p == 5 {
          assert no[p + 4] == 'f';
        } else {
          assert no[p + 1 .. p + 4] != "foo" by { assert no[p + 1] != 'f'; }
        }
      }
    }
  }
}
