/**
 * A model of the editable-choice plugin's FilterConfig: a small mutable
 * record of two flags (match only prefixes, match case-insensitively) that
 * the plugin renders as a one-line JSON object for its input view.
 *
 * The flags are treated as opaque booleans: FilterConfig only stores and
 * renders them; what they mean for matching lies outside this model.
 */
module FilterConfigs {

  datatype Option<T> = None | Some(value: T)

  /** The abstract value of a FilterConfig: its two flags. */
  datatype Flags = Flags(prefix: bool, caseInsensitive: bool)

  /** The flags a freshly constructed FilterConfig holds. */
  const Defaults: Flags := Flags(false, false)

  // ---------------------------------------------------------------------
  // The setters, on values
  // ---------------------------------------------------------------------

  /** The effect of setPrefix(b): prefix becomes b, nothing else changes. */
  function UpdatePrefix(f: Flags, b: bool): (g: Flags)
    ensures g.prefix == b
    ensures g.caseInsensitive == f.caseInsensitive
  {
    f.(prefix := b)
  }

  /** The effect of setCaseInsensitive(b): caseInsensitive becomes b, nothing else changes. */
  function UpdateCaseInsensitive(f: Flags, b: bool): (g: Flags)
    ensures g.caseInsensitive == b
    ensures g.prefix == f.prefix
  {
    f.(caseInsensitive := b)
  }

  /** Setting prefix twice to the same value is the same as setting it once. */
  lemma UpdatePrefixIdempotent(f: Flags, b: bool)
    ensures UpdatePrefix(UpdatePrefix(f, b), b) == UpdatePrefix(f, b)
  {
  }

  /** Setting caseInsensitive twice to the same value is the same as setting it once. */
  lemma UpdateCaseInsensitiveIdempotent(f: Flags, b: bool)
    ensures UpdateCaseInsensitive(UpdateCaseInsensitive(f, b), b) == UpdateCaseInsensitive(f, b)
  {
  }

  /** Each setter touches only its own field, so the two setters commute. */
  lemma UpdatesCommute(f: Flags, p: bool, c: bool)
    ensures UpdatePrefix(UpdateCaseInsensitive(f, c), p) == UpdateCaseInsensitive(UpdatePrefix(f, p), c)
    ensures UpdatePrefix(UpdateCaseInsensitive(f, c), p) == Flags(p, c)
  {
  }

  // ---------------------------------------------------------------------
  // JSON rendering (toJson) and a decoder for it
  // ---------------------------------------------------------------------

  /** The fixed text of the rendered object around the two values. */
  const Head: string := "{\"prefix\": "
  const Middle: string := ", \"caseInsensitive\": "
  const Tail: string := "}"

  /** Java's Boolean.toString. */
  function BoolToString(b: bool): (s: string)
    ensures s == "true" || s == "false"
    ensures s == "true" <==> b
  {
    if b then "true" else "false"
  }

  /**
   * The text toJson produces for the given flags: the format string
   * {"prefix": %s, "caseInsensitive": %s} with both values filled in.
   */
  function Render(f: Flags): string
  {
    Head + (BoolToString(f.prefix) + (Middle + (BoolToString(f.caseInsensitive) + Tail)))
  }

  /** Reads "true" or "false" off the front of s, returning the value and the rest. */
  function ParseBool(s: string): (r: Option<(bool, string)>)
    ensures r.Some? ==> s == BoolToString(r.value.0) + r.value.1
    ensures r.None? ==> !(BoolToString(true) <= s) && !(BoolToString(false) <= s)
  {
    if |s| >= 4 && s[..4] == "true" then
      assert s == s[..4] + s[4..];
      Some((true, s[4..]))
    else if |s| >= 5 && s[..5] == "false" then
      assert s == s[..5] + s[5..];
      Some((false, s[5..]))
    else
      None
  }

  /** Reads `, "caseInsensitive": <bool>}` to the end of the text. */
  function ParseCaseInsensitive(s: string): (r: Option<bool>)
    ensures r.Some? ==> s == Middle + (BoolToString(r.value) + Tail)
  {
    if !(Middle <= s) then None
    else
      assert s == Middle + s[|Middle|..];
      match ParseBool(s[|Middle|..])
      case None => None
      case Some((c, rest)) => if rest == Tail then Some(c) else None
  }

  /** Reads `<bool>, "caseInsensitive": <bool>}` to the end of the text. */
  function ParseValues(s: string): (r: Option<Flags>)
    ensures r.Some? ==> s == BoolToString(r.value.prefix) + (Middle + (BoolToString(r.value.caseInsensitive) + Tail))
  {
    match ParseBool(s)
    case None => None
    case Some((p, rest)) =>
      match ParseCaseInsensitive(rest)
      case None => None
      case Some(c) => Some(Flags(p, c))
  }

  /**
   * Decodes the text toJson renders. It accepts nothing but rendered text:
   * whatever decodes to flags f is exactly Render(f).
   */
  function Parse(s: string): (r: Option<Flags>)
    ensures r.Some? ==> s == Render(r.value)
  {
    if !(Head <= s) then None
    else
      assert s == Head + s[|Head|..];
      ParseValues(s[|Head|..])
  }

  /** A rendered boolean followed by anything reads back as that boolean and the rest. */
  lemma {:induction false} ParseBoolOf(b: bool, rest: string)
    ensures ParseBool(BoolToString(b) + rest) == Some((b, rest))
  {
    var s := BoolToString(b) + rest;
    if b {
      assert s[..4] == "true";
      assert s[4..] == rest;
    } else {
      assert s[..4] != "true" by { assert s[..4][3] == 's'; }
      assert s[..5] == "false";
      assert s[5..] == rest;
    }
  }

  /** The closing part of a rendered text reads back as its caseInsensitive value. */
  lemma {:induction false} ParseCaseInsensitiveOf(c: bool)
    ensures ParseCaseInsensitive(Middle + (BoolToString(c) + Tail)) == Some(c)
  {
    var s := Middle + (BoolToString(c) + Tail);
    assert Middle <= s;
    assert s[|Middle|..] == BoolToString(c) + Tail;
    ParseBoolOf(c, Tail);
  }

  /** Both rendered values, with the text between and after them, read back as the flags. */
  lemma {:induction false} ParseValuesOf(f: Flags)
    ensures ParseValues(BoolToString(f.prefix) + (Middle + (BoolToString(f.caseInsensitive) + Tail))) == Some(f)
  {
    ParseBoolOf(f.prefix, Middle + (BoolToString(f.caseInsensitive) + Tail));
    ParseCaseInsensitiveOf(f.caseInsensitive);
  }

  /** Round trip: decoding what toJson renders gives back both flags. */
  lemma {:induction false} ParseRender(f: Flags)
    ensures Parse(Render(f)) == Some(f)
  {
    var rest := BoolToString(f.prefix) + (Middle + (BoolToString(f.caseInsensitive) + Tail));
    assert Head <= Render(f);
    assert Render(f)[|Head|..] == rest;
    ParseValuesOf(f);
  }

  /** The rendered text of f is the only text that decodes to f: a corollary of Parse's own contract. */
  lemma RenderUnique(f: Flags)
    ensures forall t :: Parse(t) == Some(f) ==> t == Render(f)
  {
  }

  /** Distinct flag combinations render to distinct texts, so the four outputs are pairwise distinct. */
  lemma {:induction false} RenderInjective(f: Flags, g: Flags)
    ensures Render(f) == Render(g) <==> f == g
  {
    if Render(f) == Render(g) {
      ParseRender(f);
      ParseRender(g);
    }
  }

  // ---------------------------------------------------------------------
  // The mutable record
  // ---------------------------------------------------------------------

  class FilterConfig {
    var prefix: bool
    var caseInsensitive: bool

    /** Both flags start out false. */
    constructor ()
      ensures State() == Defaults
      ensures !IsPrefix() && !IsCaseInsensitive()
    {
      prefix := false;
      caseInsensitive := false;
    }

    /** The flags this instance currently holds, as read through its getters. */
    function State(): Flags
      reads this
    {
      Flags(IsPrefix(), IsCaseInsensitive())
    }

    /** Whether values are filtered only by prefix. */
    function IsPrefix(): bool
      reads this
    {
      prefix
    }

    /** Whether values are matched case-insensitively. */
    function IsCaseInsensitive(): bool
      reads this
    {
      caseInsensitive
    }

    method SetPrefix(b: bool)
      modifies this
      ensures State() == UpdatePrefix(old(State()), b)
      ensures IsPrefix() == b && IsCaseInsensitive() == old(IsCaseInsensitive())
    {
      prefix := b;
    }

    /** Fluent form of SetPrefix: same effect, and returns this very instance. */
    method WithPrefix(b: bool) returns (r: FilterConfig)
      modifies this
      ensures r == this
      ensures State() == UpdatePrefix(old(State()), b)
    {
      SetPrefix(b);
      r := this;
    }

    method SetCaseInsensitive(b: bool)
      modifies this
      ensures State() == UpdateCaseInsensitive(old(State()), b)
      ensures IsCaseInsensitive() == b && IsPrefix() == old(IsPrefix())
    {
      caseInsensitive := b;
    }

    /** Fluent form of SetCaseInsensitive: same effect, and returns this very instance. */
    method WithCaseInsensitive(b: bool) returns (r: FilterConfig)
      modifies this
      ensures r == this
      ensures State() == UpdateCaseInsensitive(old(State()), b)
    {
      SetCaseInsensitive(b);
      r := this;
    }

    /**
     * The JSON text of this configuration. It reads the two flags only, it
     * decodes back to exactly those flags, and no other text does (the
     * second ensures is a corollary of the first and Parse's contract,
     * spelled out for callers).
     */
    function ToJson(): (s: string)
      reads this
      ensures Parse(s) == Some(State())
      ensures forall t :: Parse(t) == Some(State()) ==> t == s
    {
      var f := Flags(IsPrefix(), IsCaseInsensitive());
      ParseRender(f);
      RenderUnique(f);
      Render(f)
    }
  }
}
