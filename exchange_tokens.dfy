/** The Exchange identifier tokens of the binding generator's parser. Every
    Exchange entity `X` is spelled `A3DXData` (its data structure),
    `A3DXGet`, `A3DXEdit` and `A3DXCreate` (its functions) and `kA3DTypeX`
    (its type enumerator); `X` is the base token. The regular expressions are
    written out as whole-string prefix/suffix patterns around a non-empty
    `[A-Za-z0-9]+` middle, which is all those patterns are. */
module ExchangeTokens {
  import opened Chars

  /** The spelling categories, in declaration order; `MaxValue` is one past the last. */
  datatype Category = Data | Get | Edit | Create | Type | MaxValue

  /** `static_cast<unsigned int>(Category::MAX_VALUE)`. */
  const CategoryCount: nat := 5

  /** `static_cast<Category>(idx)`. */
  function CategoryAt(idx: nat): Category
    requires idx <= CategoryCount
  {
    match idx
    case 0 => Data
    case 1 => Get
    case 2 => Edit
    case 3 => Create
    case 4 => Type
    case _ => MaxValue
  }

  /** The enumerator's value, the inverse of `CategoryAt`. */
  function Ordinal(c: Category): (o: nat)
    ensures o <= CategoryCount && CategoryAt(o) == c
    ensures o == CategoryCount <==> c == MaxValue
  {
    match c
    case Data => 0
    case Get => 1
    case Edit => 2
    case Create => 3
    case Type => 4
    case MaxValue => 5
  }

  /** A whole-string pattern `^prefix([A-Za-z0-9]+)suffix$`, or the
      default-constructed `std::regex`, which matches nothing. */
  datatype Pattern = Affix(prefix: string, suffix: string) | Nothing

  /** `std::regex_match(s, p)`. */
  predicate Matches(p: Pattern, s: string) {
    && p.Affix?
    && |p.prefix| + |p.suffix| < |s|
    && s[..|p.prefix|] == p.prefix
    && s[|s| - |p.suffix|..] == p.suffix
    && AllAlnum(s[|p.prefix|..|s| - |p.suffix|])
  }

  /** The one capture group of a match. */
  function Capture(p: Pattern, s: string): (r: string)
    requires Matches(p, s)
    ensures s == p.prefix + r + p.suffix
    ensures r != [] && AllAlnum(r)
  {
    var r := s[|p.prefix|..|s| - |p.suffix|];
    assert s == s[..|p.prefix|] + r + s[|s| - |p.suffix|..];
    r
  }

  /** A pattern matches its own prefix and suffix around a middle exactly when
      the middle is a non-empty `[A-Za-z0-9]+`, and the capture is that middle. */
  lemma MatchesWrapped(p: Pattern, b: string)
    requires p.Affix?
    ensures Matches(p, p.prefix + b + p.suffix) <==> b != [] && AllAlnum(b)
    ensures Matches(p, p.prefix + b + p.suffix) ==> Capture(p, p.prefix + b + p.suffix) == b
  {
    var s := p.prefix + b + p.suffix;
    assert s[..|p.prefix|] == p.prefix;
    assert s[|s| - |p.suffix|..] == p.suffix;
    assert s[|p.prefix|..|s| - |p.suffix|] == b;
  }

  /** `getRegex`: the category's pattern; `MAX_VALUE` gets the empty regex. */
  function Regex(c: Category): (p: Pattern)
    ensures c == MaxValue ==> forall s :: !Matches(p, s)
    ensures c != MaxValue ==> p.Affix? && Matches(p, p.prefix + "A" + p.suffix)
  {
    var p := match c
      case Data => Affix("A3D", "Data")
      case Get => Affix("A3D", "Get")
      case Edit => Affix("A3D", "Edit")
      case Create => Affix("A3D", "Create")
      case Type => Affix("kA3DType", "")
      case MaxValue => Nothing;
    if p.Affix? then MatchesWrapped(p, "A"); p else p
  }

  lemma PrefixChar(p: Pattern, s: string, j: nat)
    requires Matches(p, s) && j < |p.prefix|
    ensures s[j] == p.prefix[j]
  {
    assert s[..|p.prefix|][j] == s[j];
  }

  /** The last and the third-last characters of a match are those of the
      suffix, when the suffix has three characters or more. */
  lemma SuffixChars(p: Pattern, s: string)
    requires Matches(p, s) && |p.suffix| >= 3
    ensures s[|s| - 1] == p.suffix[|p.suffix| - 1]
    ensures s[|s| - 3] == p.suffix[|p.suffix| - 3]
  {
    assert s[|s| - |p.suffix|..][|p.suffix| - 1] == s[|s| - 1];
    assert s[|s| - |p.suffix|..][|p.suffix| - 3] == s[|s| - 3];
  }

  /** No spelling matches two categories, so trying them in any order finds
      the same one. */
  lemma PatternsDisjoint(c1: Category, c2: Category, s: string)
    requires c1 != c2 && Matches(Regex(c1), s)
    ensures !Matches(Regex(c2), s)
  {
    if Matches(Regex(c2), s) {
      if c1 == Type || c2 == Type {
        PrefixChar(Regex(c1), s, 0);
        PrefixChar(Regex(c2), s, 0);
      } else {
        SuffixChars(Regex(c1), s);
        SuffixChars(Regex(c2), s);
      }
    }
  }

  /** `getBaseExchangeToken`'s loop from category `idx` on: the capture of
      the first pattern that matches, else the empty string. */
  function BaseFrom(s: string, idx: nat): (r: string)
    requires idx <= CategoryCount
    ensures r == [] <==> forall j :: idx <= j < CategoryCount ==> !Matches(Regex(CategoryAt(j)), s)
    ensures AllAlnum(r)
    decreases CategoryCount - idx
  {
    if idx == CategoryCount then []
    else
      var p := Regex(CategoryAt(idx));
      if Matches(p, s) then Capture(p, s) else BaseFrom(s, idx + 1)
  }

  /** `getBaseExchangeToken`: `X` for any of the five spellings of `X`, and
      the empty string for a spelling of none of them. */
  function BaseExchangeToken(s: string): (r: string)
    ensures r == [] <==> forall c :: !Matches(Regex(c), s)
    ensures AllAlnum(r)
  {
    var r := BaseFrom(s, 0);
    assert r == [] ==> forall c :: !Matches(Regex(c), s) by {
      if r == [] {
        forall c ensures !Matches(Regex(c), s) {
          if c != MaxValue {
            assert CategoryAt(Ordinal(c)) == c;
          }
        }
      }
    }
    r
  }

  /** `getCategory`'s loop from category `idx` on: the first category whose
      pattern matches, else `MaxValue`. */
  function CategoryFrom(s: string, idx: nat): (r: Category)
    requires idx <= CategoryCount
    ensures r == MaxValue || (idx <= Ordinal(r) && Matches(Regex(r), s))
    ensures forall j :: idx <= j < Ordinal(r) ==> !Matches(Regex(CategoryAt(j)), s)
    decreases CategoryCount - idx
  {
    if idx == CategoryCount then MaxValue
    else if Matches(Regex(CategoryAt(idx)), s) then CategoryAt(idx)
    else CategoryFrom(s, idx + 1)
  }

  /** `getCategory`: the category whose pattern the spelling matches, or
      `MaxValue` when it matches none. */
  function CategoryOf(s: string): (r: Category)
    ensures r != MaxValue ==> Matches(Regex(r), s)
    ensures r == MaxValue <==> forall c :: !Matches(Regex(c), s)
  {
    var r := CategoryFrom(s, 0);
    assert r == MaxValue ==> forall c :: !Matches(Regex(c), s) by {
      if r == MaxValue {
        forall c ensures !Matches(Regex(c), s) {
          if c != MaxValue {
            assert CategoryAt(Ordinal(c)) == c;
          }
        }
      }
    }
    r
  }

  lemma {:induction false} BaseFromCategoryFrom(s: string, idx: nat)
    requires idx <= CategoryCount
    ensures CategoryFrom(s, idx) == MaxValue ==> BaseFrom(s, idx) == []
    ensures CategoryFrom(s, idx) != MaxValue ==> BaseFrom(s, idx) == Capture(Regex(CategoryFrom(s, idx)), s)
    decreases CategoryCount - idx
  {
    if idx < CategoryCount && !Matches(Regex(CategoryAt(idx)), s) {
      BaseFromCategoryFrom(s, idx + 1);
    }
  }

  /** The two first-match loops agree: the base token is the capture of the
      pattern of the spelling's category. */
  lemma BaseOfCategory(s: string)
    ensures CategoryOf(s) == MaxValue ==> BaseExchangeToken(s) == []
    ensures CategoryOf(s) != MaxValue ==> BaseExchangeToken(s) == Capture(Regex(CategoryOf(s)), s)
  {
    BaseFromCategoryFrom(s, 0);
  }

  /** `getExchangeToken`: the base token respelled in category `c`; the empty
      string when `s` spells no token or `c` is `MaxValue`. */
  function ExchangeToken(s: string, c: Category): (r: string)
    ensures c != MaxValue && BaseExchangeToken(s) != [] ==> r == Regex(c).prefix + BaseExchangeToken(s) + Regex(c).suffix
    ensures c == MaxValue || BaseExchangeToken(s) == [] ==> r == []
  {
    var base := BaseExchangeToken(s);
    if base != [] then
      match c
      case Data => "A3D" + base + "Data"
      case Get => "A3D" + base + "Get"
      case Edit => "A3D" + base + "Edit"
      case Create => "A3D" + base + "Create"
      case Type => assert "kA3DType" + base + "" == "kA3DType" + base; "kA3DType" + base
      case MaxValue => []
    else []
  }

  /** A non-empty `[A-Za-z0-9]+` base spelled in category `c` is read back as
      category `c` with base `b`. */
  lemma Respelled(c: Category, b: string)
    requires c != MaxValue && b != [] && AllAlnum(b)
    ensures CategoryOf(Regex(c).prefix + b + Regex(c).suffix) == c
    ensures BaseExchangeToken(Regex(c).prefix + b + Regex(c).suffix) == b
  {
    var t := Regex(c).prefix + b + Regex(c).suffix;
    MatchesWrapped(Regex(c), b);
    var r := CategoryOf(t);
    if r != c {
      PatternsDisjoint(c, r, t);
    }
    BaseOfCategory(t);
  }

  /** Round trip: respelling keeps the base token. */
  lemma ExchangeTokenBase(s: string, c: Category)
    requires c != MaxValue && BaseExchangeToken(s) != []
    ensures BaseExchangeToken(ExchangeToken(s, c)) == BaseExchangeToken(s)
  {
    Respelled(c, BaseExchangeToken(s));
  }

  /** Round trip: a spelling respelled in category `c` is of category `c`. */
  lemma ExchangeTokenCategory(s: string, c: Category)
    requires c != MaxValue && BaseExchangeToken(s) != []
    ensures CategoryOf(ExchangeToken(s, c)) == c
  {
    Respelled(c, BaseExchangeToken(s));
  }

  /** Respelling twice is respelling once in the last category. */
  lemma ExchangeTokenTwice(s: string, c1: Category, c2: Category)
    requires c1 != MaxValue
    ensures ExchangeToken(ExchangeToken(s, c1), c2) == ExchangeToken(s, c2)
  {
    if BaseExchangeToken(s) != [] {
      ExchangeTokenBase(s, c1);
    } else {
      assert BaseExchangeToken([]) == [];
    }
  }

  /** The spellings in the source's own comment: the type enumerator ... */
  lemma TypeExample()
    ensures BaseExchangeToken("kA3DTypeAsmModelFile") == "AsmModelFile"
    ensures CategoryOf("kA3DTypeAsmModelFile") == Type
  {
    var b := "AsmModelFile";
    assert AllAlnum(b);
    assert "kA3DTypeAsmModelFile" == Regex(Type).prefix + b + Regex(Type).suffix;
    Respelled(Type, b);
  }

  /** ... and the data structure. */
  lemma DataExample()
    ensures BaseExchangeToken("A3DAsmModelFileData") == "AsmModelFile"
    ensures CategoryOf("A3DAsmModelFileData") == Data
  {
    var b := "AsmModelFile";
    assert AllAlnum(b);
    assert "A3DAsmModelFileData" == Regex(Data).prefix + b + Regex(Data).suffix;
    Respelled(Data, b);
  }
}
