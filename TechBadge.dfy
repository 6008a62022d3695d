/**
 * The technology badge: the fixed table of known technologies, the colour, abbreviation
 * and category generated for any other name from a string hash, and the choice of a
 * black or white label from the badge colour.
 */
module TechBadge {
  import opened Wrappers
  import opened Text

  datatype TechInfo = TechInfo(color: string, abbr: string, category: string)

  /** The known technologies. */
  const TechMap: map<string, TechInfo> := map[
    "JavaScript" := TechInfo("#f7df1e", "JS", "language"),
    "TypeScript" := TechInfo("#3178c6", "TS", "language"),
    "Python" := TechInfo("#3776ab", "PY", "language"),
    "Java" := TechInfo("#007396", "JV", "language"),
    "C++" := TechInfo("#00599c", "C++", "language"),
    "C#" := TechInfo("#239120", "C#", "language"),
    "Go" := TechInfo("#00add8", "GO", "language"),
    "Rust" := TechInfo("#dea584", "RS", "language"),
    "PHP" := TechInfo("#777bb4", "PHP", "language"),
    "Ruby" := TechInfo("#cc342d", "RB", "language"),
    "Swift" := TechInfo("#f05138", "SW", "language"),
    "Kotlin" := TechInfo("#7f52ff", "KT", "language"),
    "Julia" := TechInfo("#9558b2", "JL", "language"),
    "Scala" := TechInfo("#dc322f", "SC", "language"),
    "Clojure" := TechInfo("#5881d8", "CLJ", "language"),
    "Haskell" := TechInfo("#5e5086", "HS", "language"),
    "Erlang" := TechInfo("#a90533", "ER", "language"),
    "Elixir" := TechInfo("#6e4a7e", "EX", "language"),
    "R" := TechInfo("#276dc3", "R", "language"),
    "CUDA" := TechInfo("#76b900", "CU", "language"),
    "React" := TechInfo("#61dafb", "Re", "frontend"),
    "Vue" := TechInfo("#4fc08d", "Vu", "frontend"),
    "Angular" := TechInfo("#dd0031", "Ng", "frontend"),
    "Svelte" := TechInfo("#ff3e00", "Sv", "frontend"),
    "Next.js" := TechInfo("#000000", "NX", "frontend"),
    "Material-UI" := TechInfo("#0081cb", "MUI", "frontend"),
    "Tailwind" := TechInfo("#06b6d4", "TW", "frontend"),
    "Bootstrap" := TechInfo("#7952b3", "BS", "frontend"),
    "Redux" := TechInfo("#764abc", "RX", "frontend"),
    "jQuery" := TechInfo("#0769ad", "jQ", "frontend"),
    "CSS" := TechInfo("#1572b6", "CSS", "frontend"),
    "HTML" := TechInfo("#e34f26", "HTML", "frontend"),
    "SASS" := TechInfo("#cc6699", "SASS", "frontend"),
    "Chart.js" := TechInfo("#ff6384", "CJS", "frontend"),
    "D3.js" := TechInfo("#f9a03c", "D3", "frontend"),
    "Framer Motion" := TechInfo("#0055ff", "FM", "frontend"),
    "Node.js" := TechInfo("#339933", "Nd", "backend"),
    "Express" := TechInfo("#000000", "Ex", "backend"),
    "Django" := TechInfo("#092e20", "Dj", "backend"),
    "Flask" := TechInfo("#000000", "Fl", "backend"),
    "Spring" := TechInfo("#6db33f", "Sp", "backend"),
    "Laravel" := TechInfo("#ff2d20", "Lv", "backend"),
    "ASP.NET" := TechInfo("#512bd4", "ASP", "backend"),
    "MongoDB" := TechInfo("#47a248", "MDB", "database"),
    "PostgreSQL" := TechInfo("#336791", "PG", "database"),
    "MySQL" := TechInfo("#4479a1", "SQL", "database"),
    "Redis" := TechInfo("#dc382d", "RD", "database"),
    "SQLite" := TechInfo("#003b57", "SQ", "database"),
    "GraphQL" := TechInfo("#e10098", "GQL", "backend"),
    "Apollo" := TechInfo("#311c87", "AP", "backend"),
    "REST" := TechInfo("#0096c7", "REST", "backend"),
    "Firebase" := TechInfo("#ffca28", "FB", "backend"),
    "Docker" := TechInfo("#2496ed", "DK", "devops"),
    "Kubernetes" := TechInfo("#326ce5", "K8s", "devops"),
    "Git" := TechInfo("#f05032", "Git", "tool"),
    "AWS" := TechInfo("#232f3e", "AWS", "cloud"),
    "Azure" := TechInfo("#0078d4", "AZ", "cloud"),
    "GCP" := TechInfo("#4285f4", "GCP", "cloud"),
    "Jenkins" := TechInfo("#d24939", "JK", "devops"),
    "Travis CI" := TechInfo("#3eaaaf", "TCI", "devops"),
    "CircleCI" := TechInfo("#343434", "CCI", "devops"),
    "Terraform" := TechInfo("#7b42bc", "TF", "devops"),
    "Ansible" := TechInfo("#ee0000", "ANS", "devops"),
    "TensorFlow" := TechInfo("#ff6f00", "TF", "ml"),
    "PyTorch" := TechInfo("#ee4c2c", "PT", "ml"),
    "Keras" := TechInfo("#d00000", "KR", "ml"),
    "Scikit-learn" := TechInfo("#f89939", "SKL", "ml"),
    "Pandas" := TechInfo("#150458", "PD", "ml"),
    "NumPy" := TechInfo("#013243", "NP", "ml"),
    "OpenAI" := TechInfo("#412991", "OAI", "ml"),
    "Hugging Face" := TechInfo("#ffad00", "HF", "ml"),
    "MLFlow" := TechInfo("#0194e2", "MLF", "ml"),
    "BPE" := TechInfo("#5a3b5d", "BPE", "ml"),
    "Cohere" := TechInfo("#2596be", "COH", "ml"),
    "Webpack" := TechInfo("#8dd6f9", "WP", "tool"),
    "Vite" := TechInfo("#646cff", "VT", "tool"),
    "Babel" := TechInfo("#f9dc3e", "BL", "tool"),
    "ESLint" := TechInfo("#4b32c3", "ES", "tool"),
    "Jest" := TechInfo("#c21325", "JT", "tool"),
    "Cypress" := TechInfo("#17202c", "CY", "tool"),
    "Jira" := TechInfo("#0052cc", "JR", "tool"),
    "Confluence" := TechInfo("#172b4d", "CF", "tool"),
    "Figma" := TechInfo("#f24e1e", "FM", "design"),
    "Sketch" := TechInfo("#fa6400", "SK", "design"),
    "Photoshop" := TechInfo("#31a8ff", "PS", "design"),
    "Illustrator" := TechInfo("#ff9a00", "AI", "design"),
    "Threading" := TechInfo("#6200ea", "THR", "performance"),
    "Lighthouse" := TechInfo("#f44b21", "LH", "tool")
  ]

  // ---------------------------------------------------------------------------
  // The name hash

  const TwoTo31: int := 0x8000_0000
  const TwoTo32: int := 0x1_0000_0000

  /** ECMAScript ToInt32 on an integral number: the value modulo 2^32, read as signed. */
  function ToInt32(x: int): (r: int)
    ensures -TwoTo31 <= r < TwoTo31
    ensures (x - r) % TwoTo32 == 0
  {
    var m := x % TwoTo32;
    if m >= TwoTo31 then m - TwoTo32 else m
  }

  /** `hash = c.charCodeAt(0) + ((hash << 5) - hash)`: the shift works on 32 bits, the rest does not. */
  function HashStep(hash: int, c: char): int {
    (c as int) + (ToInt32(ToInt32(hash) * 32) - hash)
  }

  /** The hash after the loop has consumed `s`. */
  function Hash(s: string): int {
    if s == [] then 0 else HashStep(Hash(s[..|s| - 1]), s[|s| - 1])
  }

  /** `a % n` in JavaScript: truncating, so the remainder takes the sign of `a`. */
  function TruncRem(a: int, n: int): (r: int)
    requires n > 0
    ensures -n < r < n
    ensures a >= 0 ==> r >= 0
    ensures a <= 0 ==> r <= 0
    ensures a == (if a >= 0 then a / n else -((-a) / n)) * n + r
  {
    if a >= 0 then a % n
    else
      assert -a == ((-a) / n) * n + (-a) % n;
      -((-a) % n)
  }

  function Abs(x: int): nat {
    if x < 0 then -x else x
  }

  /** `Math.abs(hash % 360)` */
  function Hue(hash: int): (h: nat)
    ensures h < 360
  {
    Abs(TruncRem(hash, 360))
  }

  /** `65 + Math.abs(hash % 20)` */
  function Saturation(hash: int): (s: nat)
    ensures 65 <= s <= 84
  {
    65 + Abs(TruncRem(hash, 20))
  }

  /** `45 + Math.abs(hash % 20)`: always twenty points below the saturation. */
  function Lightness(hash: int): (l: nat)
    ensures 45 <= l <= 64
    ensures l + 20 == Saturation(hash)
  {
    45 + Abs(TruncRem(hash, 20))
  }

  /** `` `hsl(${hue}, ${saturation}%, ${lightness}%)` `` */
  function HslColor(hash: int): (c: string)
    ensures |c| > 4 && c[..4] == "hsl("
    ensures '#' !in c
  {
    var h := NatToString(Hue(hash));
    var s := NatToString(Saturation(hash));
    var l := NatToString(Lightness(hash));
    assert forall x :: x in h + s + l ==> '0' <= x <= '9';
    "hsl(" + h + ", " + s + "%, " + l + "%)"
  }

  // ---------------------------------------------------------------------------
  // The abbreviation

  /** The class `[\s\.-]` the name is split on. */
  predicate IsSeparator(c: char) {
    IsJsWhitespace(c) || c == '.' || c == '-'
  }

  /** The test for a compound name looks for a plain space only, not every white space. */
  predicate IsCompound(s: string) {
    ' ' in s || '.' in s || '-' in s
  }

  /** The longest prefix without a separator. */
  function TakeWord(s: string): (w: string)
    ensures |w| <= |s| && w == s[..|w|]
    ensures forall i :: 0 <= i < |w| ==> !IsSeparator(w[i])
    ensures |w| < |s| ==> IsSeparator(s[|w|])
  {
    if s == [] || IsSeparator(s[0]) then [] else [s[0]] + TakeWord(s[1..])
  }

  /** Drops the leading run of separators. */
  function SkipSeparators(s: string): (r: string)
    ensures |r| <= |s| && r == s[|s| - |r|..]
    ensures forall i :: 0 <= i < |s| - |r| ==> IsSeparator(s[i])
    ensures r != [] ==> !IsSeparator(r[0])
  {
    if s != [] && IsSeparator(s[0]) then SkipSeparators(s[1..]) else s
  }

  /** `s.split(/[\s\.-]+/)`: the pieces between separator runs, empty ones at either end included. */
  function Split(s: string): (words: seq<string>)
    ensures words != []
    decreases |s|
  {
    var w := TakeWord(s);
    var rest := s[|w|..];
    if rest == [] then [w]
    else [w] + Split(SkipSeparators(rest))
  }

  /** `word.charAt(0).toUpperCase()`: empty for an empty piece. */
  function FirstUpper(word: string): (r: string)
    ensures |r| <= 1
  {
    if word == [] then [] else [UpperChar(word[0])]
  }

  /** `.map(word => word.charAt(0).toUpperCase()).join('')` */
  function JoinInitials(words: seq<string>): string {
    if words == [] then [] else FirstUpper(words[0]) + JoinInitials(words[1..])
  }

  /** `abbr`: initials cut to three for a compound name, else the first three letters upper-cased. */
  function Abbreviation(techName: string): (abbr: string)
    ensures |abbr| <= 3
  {
    if IsCompound(techName) then Substring(JoinInitials(Split(techName)), 0, 3)
    else ToUpper(Substring(techName, 0, if |techName| < 3 then |techName| else 3))
  }

  /**
   * The initials character by character: a character is an initial when it is not a
   * separator and it starts the name or follows a separator (`atStart` says whether the
   * character before `s` was a separator or there was none).
   */
  function WordInitials(s: string, atStart: bool): string {
    if s == [] then []
    else (if atStart && !IsSeparator(s[0]) then [UpperChar(s[0])] else []) + WordInitials(s[1..], IsSeparator(s[0]))
  }

  lemma {:induction false} InitialsSkipWord(w: string, t: string)
    requires forall i :: 0 <= i < |w| ==> !IsSeparator(w[i])
    ensures WordInitials(w + t, false) == WordInitials(t, false)
  {
    if w != [] {
      InitialsSkipWord(w[1..], t);
      assert (w + t)[1..] == w[1..] + t;
    } else {
      assert w + t == t;
    }
  }

  lemma {:induction false} InitialsSkipSeparators(s: string, atStart: bool)
    requires s != [] && IsSeparator(s[0])
    ensures WordInitials(s, atStart) == WordInitials(SkipSeparators(s), true)
    decreases |s|
  {
    if s[1..] != [] && IsSeparator(s[1]) {
      InitialsSkipSeparators(s[1..], true);
    }
  }

  /** The joined initials of the split: the first word's initial, then those of the rest. */
  lemma SplitHead(s: string)
    ensures var w := TakeWord(s);
      var rest := s[|w|..];
      JoinInitials(Split(s)) == FirstUpper(w) + (if rest == [] then [] else JoinInitials(Split(SkipSeparators(rest))))
  {
    var w := TakeWord(s);
    var rest := s[|w|..];
    if rest != [] {
      var words := [w] + Split(SkipSeparators(rest));
      assert Split(s) == words;
      assert words[1..] == Split(SkipSeparators(rest));
    } else {
      assert Split(s) == [w];
      assert [w][1..] == [];
    }
  }

  /** The initials character by character: the first word's initial, then those after it. */
  lemma WordInitialsHead(s: string)
    ensures var w := TakeWord(s);
      WordInitials(s, true) == FirstUpper(w) + WordInitials(s[|w|..], w == [])
  {
    var w := TakeWord(s);
    var rest := s[|w|..];
    if w != [] {
      assert s == w + rest;
      InitialsWordThenRest(w, rest);
      InitialsAfterWord(s, w, rest);
    }
  }

  /** Restates the word-then-rest equation for `s` cut after its first word. */
  lemma InitialsAfterWord(s: string, w: string, rest: string)
    requires s == w + rest && w != []
    requires WordInitials(w + rest, true) == [UpperChar(w[0])] + WordInitials(rest, false)
    ensures WordInitials(s, true) == FirstUpper(w) + WordInitials(s[|w|..], w == [])
  {
    assert s[|w|..] == rest;
  }

  /** A word at the start contributes its first letter, and what follows it is not at a start. */
  lemma InitialsWordThenRest(w: string, rest: string)
    requires w != [] && forall i :: 0 <= i < |w| ==> !IsSeparator(w[i])
    ensures WordInitials(w + rest, true) == [UpperChar(w[0])] + WordInitials(rest, false)
  {
    var s := w + rest;
    assert s[0] == w[0];
    assert s[1..] == w[1..] + rest;
    InitialsSkipWord(w[1..], rest);
  }

  /** The split-and-join of the source picks exactly the characters that begin a word. */
  lemma {:induction false} SplitInitials(s: string)
    ensures JoinInitials(Split(s)) == WordInitials(s, true)
    decreases |s|
  {
    var w := TakeWord(s);
    var rest := s[|w|..];
    SplitHead(s);
    WordInitialsHead(s);
    if rest != [] {
      SplitInitials(SkipSeparators(rest));
      InitialsSkipSeparators(rest, w == []);
    }
  }

  /** A compound name is abbreviated to the first three initials of its words. */
  lemma CompoundAbbreviation(techName: string)
    requires IsCompound(techName)
    ensures var initials := WordInitials(techName, true);
      Abbreviation(techName) == if |initials| <= 3 then initials else initials[..3]
  {
    SplitInitials(techName);
  }

  /** A single-word name is abbreviated to its first three characters, upper-cased. */
  lemma SimpleAbbreviation(techName: string)
    requires !IsCompound(techName)
    ensures Abbreviation(techName) == ToUpper(if |techName| <= 3 then techName else techName[..3])
  {
  }

  /**
   * A leading separator yields an empty first piece, which contributes nothing: the
   * abbreviation is the initial of the one word that follows.
   */
  lemma LeadingSeparatorIgnored(sep: char, word: string)
    requires sep == ' ' || sep == '.' || sep == '-'
    requires word != [] && forall i :: 0 <= i < |word| ==> !IsSeparator(word[i])
    ensures Abbreviation([sep] + word) == [UpperChar(word[0])]
  {
    var s := [sep] + word;
    assert s[0] == sep && s[1..] == word;
    SplitInitials(s);
    InitialsOfOneWord(word);
  }

  /** A single word's initials are its upper-cased first letter. */
  lemma InitialsOfOneWord(word: string)
    requires word != [] && forall i :: 0 <= i < |word| ==> !IsSeparator(word[i])
    ensures WordInitials(word, true) == [UpperChar(word[0])]
  {
    InitialsWordThenRest(word, []);
    assert word + [] == word;
  }

  /** ".NET" is abbreviated "N". */
  lemma DotNetAbbreviation()
    ensures Abbreviation(".NET") == "N"
  {
    LeadingSeparatorIgnored('.', "NET");
    assert ['.'] + "NET" == ".NET";
  }

  // ---------------------------------------------------------------------------
  // Generated badges

  /** What `generateTechColor(techName)` returns. */
  function Generated(techName: string): TechInfo {
    TechInfo(HslColor(Hash(techName)), Abbreviation(techName), "other")
  }

  /** `generateTechColor`: the hash loop, then the colour and the abbreviation. */
  method GenerateTechColor(techName: string) returns (info: TechInfo)
    ensures info == Generated(techName)
  {
    var hash := 0;
    for i := 0 to |techName|
      invariant hash == Hash(techName[..i])
    {
      hash := techName[i] as int + (ToInt32(ToInt32(hash) * 32) - hash);
      assert techName[..i + 1][..i] == techName[..i];
    }
    assert techName[..|techName|] == techName;
    assert hash == Hash(techName);
    var hue := Abs(TruncRem(hash, 360));
    var saturation := 65 + Abs(TruncRem(hash, 20));
    var lightness := 45 + Abs(TruncRem(hash, 20));
    var color := "hsl(" + NatToString(hue) + ", " + NatToString(saturation) + "%, " + NatToString(lightness) + "%)";
    assert color == HslColor(hash);
    var abbr := "";
    if IsCompound(techName) {
      abbr := JoinInitials(Split(techName));
      abbr := Substring(abbr, 0, 3);
    } else {
      abbr := ToUpper(Substring(techName, 0, if |techName| < 3 then |techName| else 3));
    }
    assert abbr == Abbreviation(techName);
    info := TechInfo(color, abbr, "other");
  }

  // ---------------------------------------------------------------------------
  // Label colour

  /**
   * `getTextColor`: the first `#` is dropped, three two-character slices are read as
   * hexadecimal, and the label is black when the weighted luminance is above one half.
   * A slice that does not parse gives NaN, every comparison with which is false.
   */
  function TextColor(bgColor: string): (textColor: string)
    ensures textColor == "#000000" || textColor == "#ffffff"
  {
    ChannelsColor(ReplaceFirst(bgColor, "#", ""))
  }

  /** The label colour from the three two-character slices of the `#`-less colour. */
  function ChannelsColor(hex: string): string {
    LabelColor(ParseIntHex(Substring(hex, 0, 2)), ParseIntHex(Substring(hex, 2, 4)), ParseIntHex(Substring(hex, 4, 6)))
  }

  /** `(0.299 * r + 0.587 * g + 0.114 * b) / 255 > 0.5`, cleared of fractions; NaN compares false. */
  function LabelColor(r: Option<int>, g: Option<int>, b: Option<int>): (textColor: string)
    ensures textColor == "#000000" || textColor == "#ffffff"
  {
    if r.Some? && g.Some? && b.Some? && 299 * r.value + 587 * g.value + 114 * b.value > 127500 then "#000000"
    else "#ffffff"
  }

  /** A generated colour has no `#` and starts with "hs", which is not hexadecimal: the label is white. */
  lemma GeneratedTextIsWhite(techName: string)
    ensures TextColor(Generated(techName).color) == "#ffffff"
  {
    HslTextIsWhite(Hash(techName));
  }

  /** The label on an `hsl(...)` colour is white. */
  lemma HslTextIsWhite(hash: int)
    ensures TextColor(HslColor(hash)) == "#ffffff"
  {
    var c := HslColor(hash);
    assert c[0] == 'h' by {
      assert c[..4] == "hsl(";
    }
    UnparsableTextIsWhite(c);
  }

  /** A colour without `#` whose first character cannot start a hexadecimal number gets a white label. */
  lemma UnparsableTextIsWhite(bgColor: string)
    requires '#' !in bgColor && |bgColor| >= 2
    requires !IsJsWhitespace(bgColor[0]) && bgColor[0] != '+' && bgColor[0] != '-' && !IsHexDigit(bgColor[0])
    ensures TextColor(bgColor) == "#ffffff"
  {
    TextColorWithoutHash(bgColor);
    UnparsableFirstChannel(bgColor);
  }

  /** Without a `#` nothing is removed before the slices are read. */
  lemma TextColorWithoutHash(bgColor: string)
    requires '#' !in bgColor
    ensures TextColor(bgColor) == ChannelsColor(bgColor)
  {
    NotContainedWithoutChar(bgColor, "#", 0);
  }

  /** A first character that cannot start a hexadecimal number makes the red channel NaN. */
  lemma UnparsableFirstChannel(hex: string)
    requires |hex| >= 2 && !IsJsWhitespace(hex[0]) && hex[0] != '+' && hex[0] != '-' && !IsHexDigit(hex[0])
    ensures ChannelsColor(hex) == "#ffffff"
  {
    var red := Substring(hex, 0, 2);
    assert red[0] == hex[0];
  }

  /** The slice `hex[i..j]` of two hexadecimal digits `hex[i]`, `hex[k]` parses to their value. */
  lemma HexChannel(hex: string, i: nat, k: nat, j: nat)
    requires k == i + 1 && j == i + 2 && j <= |hex| && IsHexDigit(hex[i]) && IsHexDigit(hex[k])
    ensures var p := ParseIntHex(Substring(hex, i, j));
      p.Some? && p.value == HexValue(hex[i]) * 16 + HexValue(hex[k])
  {
    var t := hex[i..j];
    assert t[0] == hex[i] && t[1] == hex[k];
    assert Substring(hex, i, j) == t;
    ParseTwoHexDigits(t);
  }

  /** Six hexadecimal digits are read as three channels. */
  lemma HexChannelsColor(hex: string)
    requires |hex| == 6 && IsHexDigit(hex[0]) && IsHexDigit(hex[1]) && IsHexDigit(hex[2])
    requires IsHexDigit(hex[3]) && IsHexDigit(hex[4]) && IsHexDigit(hex[5])
    ensures var r := HexValue(hex[0]) * 16 + HexValue(hex[1]);
      var g := HexValue(hex[2]) * 16 + HexValue(hex[3]);
      var b := HexValue(hex[4]) * 16 + HexValue(hex[5]);
      ChannelsColor(hex) == if 299 * r + 587 * g + 114 * b > 127500 then "#000000" else "#ffffff"
  {
    HexChannel(hex, 0, 1, 2);
    HexChannel(hex, 2, 3, 4);
    HexChannel(hex, 4, 5, 6);
    ParsedChannelsColor(hex);
  }

  /** Once each slice is known to parse to its two digits' value, the label follows the weighted sum. */
  lemma ParsedChannelsColor(hex: string)
    requires |hex| == 6 && IsHexDigit(hex[0]) && IsHexDigit(hex[1]) && IsHexDigit(hex[2])
    requires IsHexDigit(hex[3]) && IsHexDigit(hex[4]) && IsHexDigit(hex[5])
    requires var p := ParseIntHex(Substring(hex, 0, 2)); p.Some? && p.value == HexValue(hex[0]) * 16 + HexValue(hex[1])
    requires var p := ParseIntHex(Substring(hex, 2, 4)); p.Some? && p.value == HexValue(hex[2]) * 16 + HexValue(hex[3])
    requires var p := ParseIntHex(Substring(hex, 4, 6)); p.Some? && p.value == HexValue(hex[4]) * 16 + HexValue(hex[5])
    ensures var r := HexValue(hex[0]) * 16 + HexValue(hex[1]);
      var g := HexValue(hex[2]) * 16 + HexValue(hex[3]);
      var b := HexValue(hex[4]) * 16 + HexValue(hex[5]);
      ChannelsColor(hex) == if 299 * r + 587 * g + 114 * b > 127500 then "#000000" else "#ffffff"
  {
  }

  /** A `#rrggbb` colour is read channel by channel. */
  lemma HexColorTextColor(bgColor: string)
    requires |bgColor| == 7 && bgColor[0] == '#'
    requires forall i :: 1 <= i < 7 ==> IsHexDigit(bgColor[i])
    ensures var r := HexValue(bgColor[1]) * 16 + HexValue(bgColor[2]);
      var g := HexValue(bgColor[3]) * 16 + HexValue(bgColor[4]);
      var b := HexValue(bgColor[5]) * 16 + HexValue(bgColor[6]);
      TextColor(bgColor) == if 299 * r + 587 * g + 114 * b > 127500 then "#000000" else "#ffffff"
  {
    var hex := bgColor[1..];
    assert StartsWith(bgColor, "#");
    assert ReplaceFirst(bgColor, "#", "") == hex;
    assert forall i :: 0 <= i < 6 ==> hex[i] == bgColor[i + 1];
    HexChannelsColor(hex);
  }

  // ---------------------------------------------------------------------------
  // The badge

  /** `techMap[tech] || generateTechColor(tech)`, and the label colour drawn from it. */
  method BadgeInfo(tech: string) returns (info: TechInfo, textColor: string)
    ensures tech in TechMap ==> info == TechMap[tech]
    ensures tech !in TechMap ==> info == Generated(tech)
    ensures tech !in TechMap ==> info.category == "other" && |info.abbr| <= 3 && textColor == "#ffffff"
    ensures textColor == TextColor(info.color)
  {
    if tech in TechMap {
      info := TechMap[tech];
    } else {
      info := GenerateTechColor(tech);
      GeneratedTextIsWhite(tech);
    }
    textColor := TextColor(info.color);
  }
}
