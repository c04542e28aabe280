/**
 * Icon resolution (src/app/core/services/icon.service.ts): an icon
 * configuration becomes a URL, remembered in a cache keyed by the icon's
 * type and value.
 *
 *   - a "url" icon is its value;
 *   - a "name" icon is a file on the dashboard-icons CDN, named by the
 *     lower-cased value with each run of whitespace turned into "-";
 *   - an "initials" icon is a generated picture showing the value, or the
 *     initials of the application's name when the value is empty, on a
 *     background whose hue comes from a 32-bit hash of the name.
 *
 * Turning the initials and the colour into the picture's data URL (the SVG
 * template and `encodeURIComponent`) is a function the service is given,
 * `render`.
 */
module IconService {
  import opened Text
  import opened DashboardModels

  // ---------------------------------------------------------------------
  // Cache keys
  // ---------------------------------------------------------------------

  /** The cache key `${type}-${value}`: the application's name is not part
      of it. */
  function CacheKey(icon: IconConfig): (key: string)
    ensures var t := IconTypeName(icon.kind);
            && |key| == |t| + 1 + |icon.value|
            && key[..|t|] == t && key[|t|] == '-' && key[|t| + 1..] == icon.value
  {
    IconTypeName(icon.kind) + "-" + icon.value
  }

  /** Different icons never share a key: the type names begin with different
      letters and the value is what follows the type name and the dash. */
  lemma CacheKeyInjective(i1: IconConfig, i2: IconConfig)
    ensures CacheKey(i1) == CacheKey(i2) <==> i1 == i2
  {
    if CacheKey(i1) == CacheKey(i2) {
      var k := CacheKey(i1);
      assert k[0] == IconTypeName(i1.kind)[0] && k[0] == IconTypeName(i2.kind)[0];
      assert i1.kind == i2.kind;
      var n := |IconTypeName(i1.kind)| + 1;
      assert i1.value == k[n..];
      assert i2.value == k[n..];
    }
  }

  // ---------------------------------------------------------------------
  // CDN icons
  // ---------------------------------------------------------------------

  const DashboardIconsCdn: string := "https://cdn.jsdelivr.net/gh/walkxcode/dashboard-icons/png"
  const PngSuffix: string := ".png"

  /** The CDN file name: lower-cased, each run of whitespace replaced by a
      dash.  It holds no whitespace and no capital letter. */
  function IconSlug(name: string): (slug: string)
    ensures NoSpace(slug)
    ensures forall c :: c in slug ==> !('A' <= c <= 'Z')
    ensures NoSpace(name) ==> slug == Lower(name)
  {
    var lower := Lower(name);
    assert forall c :: c in lower ==> !('A' <= c <= 'Z');
    assert NoSpace("-");
    LowerKeepsNoSpace(name);
    ReplaceSpaceRuns(lower, "-")
  }

  /** `getIconFromCDN`: the dashboard-icons URL of a name. */
  function IconFromCdn(name: string): (url: string)
    ensures |url| == |DashboardIconsCdn| + 1 + |IconSlug(name)| + |PngSuffix|
    ensures url[..|DashboardIconsCdn|] == DashboardIconsCdn
    ensures url[|DashboardIconsCdn|] == '/'
    ensures url[|DashboardIconsCdn| + 1..|url| - |PngSuffix|] == IconSlug(name)
    ensures url[|url| - |PngSuffix|..] == PngSuffix
  {
    DashboardIconsCdn + "/" + IconSlug(name) + PngSuffix
  }

  /** A slug is its own slug: a name already in CDN form is used as it is. */
  lemma {:induction false} IconSlugIdempotent(name: string)
    ensures IconSlug(IconSlug(name)) == IconSlug(name)
  {
    var slug := IconSlug(name);
    forall k | 0 <= k < |slug| ensures LowerChar(slug[k]) == slug[k] {
      assert slug[k] in slug;
    }
    assert Lower(slug) == slug;
    assert ReplaceSpaceRuns(slug, "-") == slug;
  }

  /** The slug is the lower-cased name split at its whitespace runs, the
      pieces joined by dashes. */
  lemma IconSlugIsJoin(name: string)
    ensures IconSlug(name) == Join("-", SplitSpaces(Lower(name)))
  {
    ReplaceSpaceRunsIsJoin(Lower(name), "-");
  }

  /** Two words around one whitespace character are lower-cased and joined
      by a dash. */
  lemma TwoWordsSlug(a: string, c: char, b: string)
    requires NoSpace(a) && IsSpace(c) && NoSpace(b)
    ensures IconSlug(a + [c] + b) == Lower(a) + "-" + Lower(b)
  {
    LowerAround(a, c, b);
    LowerKeepsNoSpace(a);
    LowerKeepsNoSpace(b);
    assert LowerChar(c) == c;
    ReplaceRunsOneBreak(Lower(a), c, Lower(b), IsSpace, "-");
  }

  /** "Home Assistant" is looked up as "home-assistant". */
  lemma HomeAssistantSlug()
    ensures IconSlug("Home Assistant") == "home-assistant"
  {
    HomeAssistantWords();
    HomeAssistantLower();
    TwoWordsSlug("Home", ' ', "Assistant");
  }

  lemma HomeAssistantWords()
    ensures "Home Assistant" == "Home" + [' '] + "Assistant"
    ensures NoSpace("Home") && IsSpace(' ') && NoSpace("Assistant")
  {
    LettersHaveNoSpace("Home");
    LettersHaveNoSpace("Assistant");
  }

  lemma HomeAssistantLower()
    ensures Lower("Home") + "-" + Lower("Assistant") == "home-assistant"
  {
    assert Lower("Home") == "home";
    assert Lower("Assistant") == "assistant";
  }

  lemma LettersHaveNoSpace(w: string)
    requires forall k :: 0 <= k < |w| ==> 'A' <= w[k] <= 'z'
    ensures NoSpace(w)
  {
    forall k | 0 <= k < |w| ensures !IsSpace(w[k]) {
      LetterIsNotSpace(w[k]);
    }
  }

  // ---------------------------------------------------------------------
  // Initials
  // ---------------------------------------------------------------------

  function Min(a: int, b: int): int {
    if a <= b then a else b
  }

  /** Neither end of `t` is in the class `p`. */
  predicate Trimmed(t: string, p: char -> bool) {
    t == [] || (!p(t[0]) && !p(t[|t| - 1]))
  }

  /** The initials of a trimmed text whose words are separated by runs of
      the class `p`.  It is written for any class so that its proofs need
      not look at which characters `\s` matches. */
  function InitialsIn(t: string, p: char -> bool): (r: string)
    requires Trimmed(t, p)
    ensures |r| <= 2
  {
    var words := SplitRuns(t, p);
    if |words| == 1 then
      Upper(words[0][..Min(2, |words[0]|)])
    else
      LastPiece(t, p, 0);
      Upper([words[0][0], words[|words| - 1][0]])
  }

  lemma OneWordInitialsIn(t: string, p: char -> bool)
    requires Trimmed(t, p) && NoneIn(t, p)
    ensures InitialsIn(t, p) == Upper(t[..Min(2, |t|)])
  {
    OnePieceIffNoneIn(t, p);
    assert SplitRuns(t, p)[0] == t[..|t|];
  }

  /** The last word of a text with a class character starts right after
      one. */
  lemma LastWordFollowsRun(t: string, p: char -> bool) returns (k: nat)
    requires Trimmed(t, p) && !NoneIn(t, p)
    ensures var words := SplitRuns(t, p); var last := words[|words| - 1];
      && 0 < k < |t| - 1
      && p(t[k])
      && last == t[k + 1..]
      && NoneIn(last, p)
  {
    var words := SplitRuns(t, p);
    LastPiece(t, p, 0);
    PiecesHaveNoneIn(t, p, 0, |words| - 1);
    k := LastStart(t, p, 0) - 1;
  }

  /** Several words give the first character and the one after the last
      run of the class. */
  lemma SeveralWordsAt(t: string, p: char -> bool) returns (k: nat)
    requires Trimmed(t, p) && !NoneIn(t, p)
    ensures 0 < k < |t| - 1 && p(t[k]) && NoneIn(t[k + 1..], p)
    ensures InitialsIn(t, p) == Upper([t[0], t[k + 1]])
  {
    var words := SplitRuns(t, p);
    OnePieceIffNoneIn(t, p);
    k := LastWordFollowsRun(t, p);
    assert t[k + 1] == words[|words| - 1][0];
    assert words[0][0] == t[0];
  }

  lemma SeveralWordsInitialsIn(t: string, p: char -> bool)
    requires Trimmed(t, p) && !NoneIn(t, p)
    ensures var r := InitialsIn(t, p);
      && |r| == 2
      && r[0] == UpperChar(t[0])
      && exists k ::
           && 0 < k < |t| - 1
           && p(t[k])
           && NoneIn(t[k + 1..], p)
           && r[1] == UpperChar(t[k + 1])
  {
    var k := SeveralWordsAt(t, p);
  }

  /** `extractInitials`: the trimmed name split at whitespace runs; one word
      gives its first two characters, several give the first character of
      the first and of the last word; upper-cased either way. */
  function ExtractInitials(name: string): (r: string)
    ensures |r| <= 2
  {
    InitialsIn(Trim(name), IsSpace)
  }

  /** A name without inner whitespace gives its first two characters,
      upper-cased. */
  lemma OneWordInitials(name: string)
    requires NoSpace(Trim(name))
    ensures var t := Trim(name); ExtractInitials(name) == Upper(t[..Min(2, |t|)])
  {
    OneWordInitialsIn(Trim(name), IsSpace);
  }

  /** A name with inner whitespace gives two letters: its first character
      and the one right after its last whitespace, upper-cased. */
  lemma SeveralWordsInitials(name: string)
    requires !NoSpace(Trim(name))
    ensures var t := Trim(name);
      var r := ExtractInitials(name);
      && |r| == 2
      && r[0] == UpperChar(t[0])
      && exists k ::
           && 0 < k < |t| - 1
           && IsSpace(t[k])
           && NoSpace(t[k + 1..])
           && r[1] == UpperChar(t[k + 1])
  {
    SeveralWordsInitialsIn(Trim(name), IsSpace);
  }

  /** The initials are empty exactly when the name is blank. */
  lemma InitialsEmptyIffBlank(name: string)
    ensures ExtractInitials(name) == [] <==> IsBlank(name)
  {
    var t := Trim(name);
    if NoSpace(t) {
      OneWordInitials(name);
    } else {
      SeveralWordsInitials(name);
    }
  }

  /** `generateInitialsIcon`'s choice of text: the given initials unless
      empty, the name's initials otherwise. */
  function DisplayInitials(name: string, initials: string): (r: string)
    ensures initials != [] ==> r == initials
    ensures initials == [] ==> |r| <= 2 && (r == [] <==> IsBlank(name))
  {
    if initials != [] then initials else InitialsEmptyIffBlank(name); ExtractInitials(name)
  }

  lemma TwoWordsInitialsIn(a: string, c: char, b: string, p: char -> bool)
    requires a != [] && b != [] && NoneIn(a, p) && NoneIn(b, p) && p(c)
    ensures Trimmed(a + [c] + b, p)
    ensures InitialsIn(a + [c] + b, p) == Upper([a[0], b[0]])
  {
    var t := a + [c] + b;
    assert t[0] == a[0] && t[|t| - 1] == b[|b| - 1];
    assert t[|a|] == c;
    var k := SeveralWordsAt(t, p);
    if k < |a| {
      assert false;
    } else if k > |a| {
      assert false;
    }
    assert t[k + 1] == b[0];
  }

  /** Two words separated by one whitespace character give their first
      letters, upper-cased. */
  lemma TwoWordsInitials(a: string, c: char, b: string)
    requires a != [] && b != [] && NoSpace(a) && NoSpace(b) && IsSpace(c)
    ensures ExtractInitials(a + [c] + b) == Upper([a[0], b[0]])
  {
    var t := a + [c] + b;
    TwoWordsInitialsIn(a, c, b, IsSpace);
    assert Trim(t) == t;
  }

  /** A word of two or more characters gives its first two, upper-cased. */
  lemma LongWordInitials(w: string)
    requires |w| >= 2 && NoSpace(w)
    ensures ExtractInitials(w) == Upper(w[..2])
  {
    TrimKeepsTrimmed(w);
    OneWordInitials(w);
  }

  lemma GrafanaHasNoSpace()
    ensures NoSpace("Grafana")
  {
    var w := "Grafana";
    forall j | 0 <= j < |w| ensures !IsSpace(w[j]) {
      LetterIsNotSpace(w[j]);
    }
  }

  /** "Grafana" gives "GR". */
  lemma GrafanaInitials()
    ensures ExtractInitials("Grafana") == "GR"
  {
    GrafanaHasNoSpace();
    LongWordInitials("Grafana");
    var r := Upper("Grafana"[..2]);
    assert r[0] == 'G' && r[1] == 'R';
  }

  /** A blank name gives no initials. */
  lemma BlankNameInitials()
    ensures ExtractInitials(" ") == ""
  {
    assert AllSpace(" ");
    BlankIffAllSpace(" ");
    InitialsEmptyIffBlank(" ");
  }

  lemma LetterIsNotSpace(c: char)
    requires 'A' <= c <= 'z'
    ensures !IsSpace(c)
  {
  }

  // ---------------------------------------------------------------------
  // The background colour: a 32-bit string hash mapped to a hue
  // ---------------------------------------------------------------------

  const TwoTo32: int := 0x1_0000_0000
  const TwoTo31: int := 0x8000_0000

  /** ECMAScript ToInt32 on an integral number: the value modulo 2^32, read
      as a signed 32-bit integer. */
  function ToInt32(x: int): (r: int)
    ensures -TwoTo31 <= r < TwoTo31
    ensures (x - r) % TwoTo32 == 0
    ensures -TwoTo31 <= x < TwoTo31 ==> r == x
  {
    var m := x % TwoTo32;
    if m >= TwoTo31 then m - TwoTo32 else m
  }

  /** `x << 5`: both the operand and the result are taken to 32 bits. */
  function ShiftLeft5(x: int): (r: int)
    ensures -TwoTo31 <= r < TwoTo31
    ensures (ToInt32(x) * 32 - r) % TwoTo32 == 0
  {
    ToInt32(ToInt32(x) * 32)
  }

  /** The value `hash` holds after the loop over `s`: each step computes
      `charCodeAt(i) + ((hash << 5) - hash)`, where only the shift is taken
      to 32 bits. */
  function Hash(s: string): int
  {
    if s == [] then 0
    else
      var h := Hash(s[..|s| - 1]);
      s[|s| - 1] as int + (ShiftLeft5(h) - h)
  }

  /** Modulo 2^32, each step of the hash is `31 * hash + code`. */
  lemma HashStepWraps(s: string)
    requires s != []
    ensures (Hash(s) - (31 * Hash(s[..|s| - 1]) + s[|s| - 1] as int)) % TwoTo32 == 0
  {
    var h := Hash(s[..|s| - 1]);
    ShiftIsTimes32(h);
    assert Hash(s) - (31 * h + s[|s| - 1] as int) == ShiftLeft5(h) - 32 * h;
  }

  /** Modulo 2^32 the wrapped shift is multiplication by 32. */
  lemma ShiftIsTimes32(x: int)
    ensures (ShiftLeft5(x) - 32 * x) % TwoTo32 == 0
  {
    var t := ToInt32(x);
    var r := ShiftLeft5(x);
    var a := (x - t) / TwoTo32;
    var b := (t * 32 - r) / TwoTo32;
    assert x - t == a * TwoTo32;
    assert t * 32 - r == b * TwoTo32;
    assert r - 32 * x == (-(32 * a + b)) * TwoTo32;
    MultipleIsZeroMod(-(32 * a + b), TwoTo32);
  }

  /** `a % n` on numbers: the remainder takes the sign of `a` and differs
      from `a` by a multiple of `n`. */
  function JsRem(a: int, n: int): (r: int)
    requires n > 0
    ensures -n < r < n
    ensures a >= 0 ==> r >= 0
    ensures a <= 0 ==> r <= 0
    ensures (a - r) % n == 0
  {
    if a >= 0 then
      var q := a / n;
      assert a - a % n == q * n;
      MultipleIsZeroMod(q, n);
      a % n
    else
      var q := (-a) / n;
      assert a + (-a) % n == (-q) * n;
      MultipleIsZeroMod(-q, n);
      -((-a) % n)
  }

  lemma {:induction false} ProductAtLeast(d: int, n: int)
    requires d >= 1 && n > 0
    ensures d * n >= n
    decreases d
  {
    if d > 1 {
      ProductAtLeast(d - 1, n);
      assert d * n == (d - 1) * n + n;
    }
  }

  /** A multiple of `n` leaves no remainder. */
  lemma MultipleIsZeroMod(q: int, n: int)
    requires n > 0
    ensures (q * n) % n == 0
  {
    var a := q * n;
    var q0, r0 := a / n, a % n;
    assert (q - q0) * n == r0;
    if q > q0 {
      ProductAtLeast(q - q0, n);
    }
  }

  function Abs(a: int): nat {
    if a < 0 then -a else a
  }

  /** `Math.abs(hash % 360)`: a hue in [0, 359] fixed by the string. */
  function Hue(s: string): (h: nat)
    ensures h < 360
    ensures h == Abs(Hash(s)) % 360
  {
    Abs(JsRem(Hash(s), 360))
  }

  const Saturation: nat := 70
  const Lightness: nat := 55

  function HslPrefix(): string { "hsl(" }

  function HslSuffix(): string {
    ", " + NatToString(Saturation) + "%, " + NatToString(Lightness) + "%)"
  }

  /** The colour text `hsl(h, 70%, 55%)` of a hue. */
  function Hsl(h: nat): string {
    HslPrefix() + (NatToString(h) + HslSuffix())
  }

  /** The colour of a string: the colour text of its hue. */
  function Color(s: string): string {
    Hsl(Hue(s))
  }

  lemma SameFrontSameRest(p: string, x: string, y: string)
    requires p + x == p + y
    ensures x == y
  {
    assert x == (p + x)[|p|..];
    assert y == (p + y)[|p|..];
  }

  lemma SameRestSameFront(x: string, y: string, t: string)
    requires x + t == y + t
    ensures x == y
  {
    assert x == (x + t)[..|x|];
    assert y == (y + t)[..|y|];
  }

  /** The colour text names the hue: different hues give different texts. */
  lemma HslInjective(h: nat, g: nat)
    ensures Hsl(h) == Hsl(g) <==> h == g
  {
    if Hsl(h) == Hsl(g) {
      SameFrontSameRest(HslPrefix(), NatToString(h) + HslSuffix(), NatToString(g) + HslSuffix());
      SameRestSameFront(NatToString(h), NatToString(g), HslSuffix());
    }
  }

  /** Two strings get the same colour exactly when they get the same hue. */
  lemma ColorDeterminedByHue(a: string, b: string)
    ensures Color(a) == Color(b) <==> Hue(a) == Hue(b)
  {
    HslInjective(Hue(a), Hue(b));
  }

  /** `getColorFromString`: the loop computes the hash of the whole string. */
  method GetColorFromString(str: string) returns (color: string)
    ensures color == Color(str)
  {
    var hash := 0;
    for i := 0 to |str|
      invariant hash == Hash(str[..i])
    {
      assert str[..i + 1][..i] == str[..i];
      hash := str[i] as int + (ShiftLeft5(hash) - hash);
    }
    assert str[..|str|] == str;
    var h := Abs(JsRem(hash, 360));
    color := Hsl(h);
  }

  /** The classic multiplicative string hash `31 * h + c`. */
  function PolynomialHash(s: string): int {
    if s == [] then 0 else 31 * PolynomialHash(s[..|s| - 1]) + s[|s| - 1] as int
  }

  function Pow32(n: nat): nat {
    if n == 0 then 1 else 32 * Pow32(n - 1)
  }

  lemma {:induction false} PolynomialHashBound(s: string)
    requires forall k :: 0 <= k < |s| ==> s[k] as int < 128
    ensures 0 <= PolynomialHash(s) < 128 * Pow32(|s|)
  {
    if s != [] {
      var p := s[..|s| - 1];
      PolynomialHashBound(p);
      assert Pow32(|s|) == 32 * Pow32(|p|);
    }
  }

  /** For ASCII strings of up to four characters nothing wraps: `(h << 5) - h`
      is `31 * h`, and the hash is the multiplicative one. */
  lemma {:induction false} ShortAsciiHash(s: string)
    requires |s| <= 4
    requires forall k :: 0 <= k < |s| ==> s[k] as int < 128
    ensures Hash(s) == PolynomialHash(s)
  {
    if s != [] {
      var p := s[..|s| - 1];
      ShortAsciiHash(p);
      PolynomialHashBound(p);
      assert Pow32(|p|) <= 32768 by {
        assert Pow32(0) == 1 && Pow32(1) == 32 && Pow32(2) == 1024 && Pow32(3) == 32768;
      }
      var h := Hash(p);
      assert 0 <= h < TwoTo31 / 32;
      assert ShiftLeft5(h) == 32 * h;
    }
  }

  // ---------------------------------------------------------------------
  // Resolution and the cache
  // ---------------------------------------------------------------------

  /** The picture of an initials icon, as `generateInitialsIcon` builds it. */
  function InitialsPicture(name: string, initials: string, render: (string, string) -> string): string {
    render(DisplayInitials(name, initials), Color(name))
  }

  /** The URL an icon resolves to when it is not in the cache. */
  function Resolve(icon: IconConfig, appName: string, render: (string, string) -> string): (url: string)
    ensures icon.kind == UrlIcon ==> url == icon.value
    ensures icon.kind == NameIcon ==> url == IconFromCdn(icon.value)
    ensures icon.kind == InitialsIcon ==> url == InitialsPicture(appName, icon.value, render)
  {
    match icon.kind
    case UrlIcon => icon.value
    case NameIcon => IconFromCdn(icon.value)
    case InitialsIcon => InitialsPicture(appName, icon.value, render)
  }

  /** Every cached URL is what its key's icon resolved to for some
      application name, recorded in `origin`. */
  ghost predicate CacheAgrees(cache: map<string, string>, origin: map<string, (IconConfig, string)>,
                              render: (string, string) -> string)
  {
    forall k :: k in cache ==>
      && k in origin
      && CacheKey(origin[k].0) == k
      && cache[k] == Resolve(origin[k].0, origin[k].1, render)
  }

  /** A cached "url" or "name" icon is what resolving it gives for any
      application name. */
  lemma CachedUrlOrNameIsResolved(cache: map<string, string>, origin: map<string, (IconConfig, string)>,
                                  render: (string, string) -> string, icon: IconConfig, appName: string)
    requires CacheAgrees(cache, origin, render)
    requires CacheKey(icon) in cache && icon.kind != InitialsIcon
    ensures cache[CacheKey(icon)] == Resolve(icon, appName, render)
  {
    CacheKeyInjective(icon, origin[CacheKey(icon)].0);
  }

  /** A cached "initials" icon is the picture for the icon's value and the
      name of whichever application asked first. */
  lemma CachedInitialsFromSomeName(cache: map<string, string>, origin: map<string, (IconConfig, string)>,
                                   render: (string, string) -> string, icon: IconConfig)
    requires CacheAgrees(cache, origin, render)
    requires CacheKey(icon) in cache && icon.kind == InitialsIcon
    ensures exists name :: cache[CacheKey(icon)] == InitialsPicture(name, icon.value, render)
  {
    var k := CacheKey(icon);
    CacheKeyInjective(icon, origin[k].0);
    assert cache[k] == InitialsPicture(origin[k].1, icon.value, render);
  }

  /** The icon service's state: the cache. */
  class IconService {
    /** Builds the picture's data URL from the initials and the colour. */
    const render: (string, string) -> string
    var cache: map<string, string>
    /** For each cached key, the icon and application name it was computed
        from. */
    ghost var origin: map<string, (IconConfig, string)>

    ghost predicate Valid()
      reads this
    {
      CacheAgrees(cache, origin, render)
    }

    /** The cache starts empty. */
    constructor(render: (string, string) -> string)
      ensures Valid()
      ensures this.render == render && cache == map[]
    {
      this.render := render;
      cache := map[];
      origin := map[];
    }

    /** `generateInitialsIcon`. */
    method GenerateInitialsIcon(name: string, initials: string) returns (url: string)
      ensures url == InitialsPicture(name, initials, render)
    {
      var display := if initials != [] then initials else ExtractInitials(name);
      var backgroundColor := GetColorFromString(name);
      url := render(display, backgroundColor);
    }

    /** `getIconUrlFromConfig`: a cached URL is returned as it is, whatever
        the application's name; otherwise the URL is resolved and cached. */
    method GetIconUrlFromConfig(icon: IconConfig, appName: string) returns (url: string)
      requires Valid()
      modifies this
      ensures Valid()
      ensures CacheKey(icon) in old(cache) ==> url == old(cache)[CacheKey(icon)] && cache == old(cache)
      ensures CacheKey(icon) !in old(cache) ==>
                url == Resolve(icon, appName, render) && cache == old(cache)[CacheKey(icon) := url]
      ensures CacheKey(icon) in cache && cache[CacheKey(icon)] == url
    {
      var cacheKey := CacheKey(icon);
      if cacheKey in cache {
        return cache[cacheKey];
      }
      match icon.kind {
        case UrlIcon =>
          url := icon.value;
        case NameIcon =>
          url := IconFromCdn(icon.value);
        case InitialsIcon =>
          url := GenerateInitialsIcon(appName, icon.value);
      }
      cache := cache[cacheKey := url];
      origin := origin[cacheKey := (icon, appName)];
    }

    /** `getIconUrl`: the application's icon, with its name for initials. */
    method GetIconUrl(app: SelfhostedApp) returns (url: string)
      requires Valid()
      modifies this
      ensures Valid()
      ensures CacheKey(app.icon) in old(cache) ==> url == old(cache)[CacheKey(app.icon)] && cache == old(cache)
      ensures CacheKey(app.icon) !in old(cache) ==>
                url == Resolve(app.icon, app.name, render) && cache == old(cache)[CacheKey(app.icon) := url]
    {
      url := GetIconUrlFromConfig(app.icon, app.name);
    }

    /** `clearCache`. */
    method ClearCache()
      modifies this
      ensures Valid()
      ensures cache == map[]
    {
      cache := map[];
      origin := map[];
    }
  }

  /** Two applications with the same initials icon get the picture of the
      first one's name: the cache key leaves the name out. */
  method FirstNameWins(render: (string, string) -> string, value: string, name1: string, name2: string)
    returns (url1: string, url2: string)
    ensures url1 == url2
    ensures url1 == InitialsPicture(name1, value, render)
  {
    var service := new IconService(render);
    url1 := service.GetIconUrlFromConfig(IconConfig(InitialsIcon, value), name1);
    url2 := service.GetIconUrlFromConfig(IconConfig(InitialsIcon, value), name2);
  }

  /** Any "url" or "name" icon found in a consistent cache is the one
      resolution would give. */
  method LookupAgreesWithResolve(render: (string, string) -> string, icon: IconConfig, name1: string, name2: string)
    returns (url1: string, url2: string)
    requires icon.kind != InitialsIcon
    ensures url1 == url2 == Resolve(icon, name2, render)
  {
    var service := new IconService(render);
    url1 := service.GetIconUrlFromConfig(icon, name1);
    url2 := service.GetIconUrlFromConfig(icon, name2);
    CachedUrlOrNameIsResolved(service.cache, service.origin, render, icon, name2);
  }
}
