/// The small configuration enums of the dashboard: the colour gradient used
/// for rates, the column the index table is sorted by, and the sort order.
module UiTypes {
  import opened Base

  datatype Colormap =
    | Turbo | Spectral | Inferno | Magma | Plasma
    | Viridis | Rainbow | Cividis | Warm | Cool

  /// `Colormap::default()`.
  const DEFAULT_COLORMAP: Colormap := Turbo

  /// `Colormap::ALL`: the cycling order, which differs from declaration order.
  const ALL: seq<Colormap> :=
    [Inferno, Magma, Plasma, Viridis, Turbo, Spectral, Rainbow, Cividis, Warm, Cool]

  function NextColormap(c: Colormap): Colormap {
    match c
    case Inferno => Magma
    case Magma => Plasma
    case Plasma => Viridis
    case Viridis => Turbo
    case Turbo => Spectral
    case Spectral => Rainbow
    case Rainbow => Cividis
    case Cividis => Warm
    case Warm => Cool
    case Cool => Inferno
  }

  function PrevColormap(c: Colormap): Colormap {
    match c
    case Inferno => Cool
    case Magma => Inferno
    case Plasma => Magma
    case Viridis => Plasma
    case Turbo => Viridis
    case Spectral => Turbo
    case Rainbow => Spectral
    case Cividis => Rainbow
    case Warm => Cividis
    case Cool => Warm
  }

  /// The `Display` text of a colormap.
  function ColormapName(c: Colormap): string {
    match c
    case Turbo => "turbo"
    case Spectral => "spectral"
    case Inferno => "inferno"
    case Magma => "magma"
    case Plasma => "plasma"
    case Viridis => "viridis"
    case Rainbow => "rainbow"
    case Cividis => "cividis"
    case Warm => "warm"
    case Cool => "cool"
  }

  /// ASCII lower-casing of one character.
  function LowerChar(ch: char): char {
    if 'A' <= ch <= 'Z' then (ch as int + 32) as char else ch
  }

  /// `str::to_lowercase`, restricted to ASCII letters.
  function ToLower(s: string): (r: string)
    ensures |r| == |s|
    ensures forall i :: 0 <= i < |s| ==> r[i] == LowerChar(s[i])
  {
    if |s| == 0 then "" else [LowerChar(s[0])] + ToLower(s[1..])
  }

  /// Joins strings with a separator, as `Vec::join`.
  function Join(parts: seq<string>, sep: string): string {
    if |parts| == 0 then ""
    else if |parts| == 1 then parts[0]
    else parts[0] + sep + Join(parts[1..], sep)
  }

  function AllNames(cs: seq<Colormap>): seq<string> {
    if |cs| == 0 then [] else [ColormapName(cs[0])] + AllNames(cs[1..])
  }

  /// The error text of `from_str` for an unknown name.
  function UnknownColormapMessage(s: string): string {
    "Unknown colormap '" + s + "'. Available: " + Join(AllNames(ALL), ", ")
  }

  /// `Colormap::from_str`: case-insensitive match on the display names.
  function ParseColormap(s: string): (r: Result<Colormap, string>)
    ensures r.Ok? ==> ColormapName(r.value) == ToLower(s)
  {
    var lower := ToLower(s);
    if lower == "turbo" then Ok(Turbo)
    else if lower == "spectral" then Ok(Spectral)
    else if lower == "inferno" then Ok(Inferno)
    else if lower == "magma" then Ok(Magma)
    else if lower == "plasma" then Ok(Plasma)
    else if lower == "viridis" then Ok(Viridis)
    else if lower == "rainbow" then Ok(Rainbow)
    else if lower == "cividis" then Ok(Cividis)
    else if lower == "warm" then Ok(Warm)
    else if lower == "cool" then Ok(Cool)
    else Err(UnknownColormapMessage(s))
  }

  datatype SortColumn = Name | DocCount | Rate | Size | Health

  /// `SortColumn::default()`.
  const DEFAULT_SORT_COLUMN: SortColumn := Rate

  function NextColumn(c: SortColumn): SortColumn {
    match c
    case Name => DocCount
    case DocCount => Rate
    case Rate => Size
    case Size => Health
    case Health => Name
  }

  function PrevColumn(c: SortColumn): SortColumn {
    match c
    case Name => Health
    case DocCount => Name
    case Rate => DocCount
    case Size => Rate
    case Health => Size
  }

  datatype SortOrder = Ascending | Descending

  /// `SortOrder::default()`.
  const DEFAULT_SORT_ORDER: SortOrder := Descending

  function ToggleOrder(o: SortOrder): SortOrder {
    match o
    case Ascending => Descending
    case Descending => Ascending
  }

  // ---------------------------------------------------------------------
  // Properties of the cycles

  /// `next` and `prev` undo each other on colormaps.
  lemma ColormapNextPrevInverse(c: Colormap)
    ensures PrevColormap(NextColormap(c)) == c
    ensures NextColormap(PrevColormap(c)) == c
  {
  }

  /// `ALL` lists every colormap exactly once.
  lemma AllIsEnumeration(c: Colormap)
    ensures |ALL| == 10
    ensures c in ALL
    ensures forall i, j :: 0 <= i < j < |ALL| ==> ALL[i] != ALL[j]
  {
  }

  /// `next` walks `ALL` in order and wraps from the last entry to the first.
  lemma NextFollowsAll(i: nat)
    requires i < |ALL|
    ensures NextColormap(ALL[i]) == ALL[(i + 1) % |ALL|]
  {
  }

  function IterateNext(c: Colormap, n: nat): Colormap {
    if n == 0 then c else NextColormap(IterateNext(c, n - 1))
  }

  /// Walking `k` steps from `ALL[i]` lands on `ALL[(i + k) % 10]`.
  lemma {:induction false} IterateNextFollowsAll(i: nat, k: nat)
    requires i < |ALL|
    ensures IterateNext(ALL[i], k) == ALL[(i + k) % |ALL|]
  {
    if k > 0 {
      var j := (i + k - 1) % 10;
      IterateNextFollowsAll(i, k - 1);
      assert IterateNext(ALL[i], k - 1) == ALL[j];
      NextFollowsAll(j);
      ModSucc(i + k - 1);
      assert (j + 1) % 10 == (i + k) % 10;
    }
  }

  lemma ModSucc(a: nat)
    ensures (a % 10 + 1) % 10 == (a + 1) % 10
  {
    var q, r := a / 10, a % 10;
    assert a == 10 * q + r;
    if r == 9 {
      assert a + 1 == 10 * (q + 1);
    } else {
      assert a + 1 == 10 * q + (r + 1);
    }
  }

  /// Ten presses of the "next colormap" key return to the starting colormap.
  lemma NextTenTimesIsIdentity(c: Colormap)
    ensures IterateNext(c, 10) == c
  {
    AllIsEnumeration(c);
    var i :| 0 <= i < |ALL| && ALL[i] == c;
    IterateNextFollowsAll(i, 10);
  }

  /// The display name is already lower case, so parsing it gives the colormap back.
  lemma ParseDisplayRoundTrip(c: Colormap)
    ensures ParseColormap(ColormapName(c)) == Ok(c)
  {
    LowerIsFixed(ColormapName(c));
    match c {
      case Turbo =>
      case Spectral =>
      case Inferno =>
      case Magma =>
      case Plasma =>
      case Viridis =>
      case Rainbow =>
      case Cividis =>
      case Warm =>
      case Cool =>
    }
  }

  /// Lower-casing leaves a string without upper-case letters unchanged.
  lemma LowerIsFixed(s: string)
    requires forall i :: 0 <= i < |s| ==> !('A' <= s[i] <= 'Z')
    ensures ToLower(s) == s
  {
  }

  /// Parsing ignores the case of ASCII letters.
  lemma ParseIgnoresCase(s: string, t: string)
    requires ToLower(s) == ToLower(t)
    ensures ParseColormap(s).Ok? == ParseColormap(t).Ok?
    ensures ParseColormap(s).Ok? ==> ParseColormap(s) == ParseColormap(t)
  {
  }

  /// A name that lower-cases to none of the ten display names is rejected
  /// with the message that lists them.
  lemma ParseUnknownIsErr(s: string)
    requires forall c :: ToLower(s) != ColormapName(c)
    ensures ParseColormap(s) == Err(UnknownColormapMessage(s))
  {
    assert ToLower(s) != ColormapName(Turbo) && ToLower(s) != ColormapName(Cool);
  }

  /// `SortColumn::next` and `prev` undo each other, and the cycle is
  /// Name, DocCount, Rate, Size, Health and back to Name.
  lemma ColumnNextPrevInverse(c: SortColumn)
    ensures PrevColumn(NextColumn(c)) == c
    ensures NextColumn(PrevColumn(c)) == c
    ensures NextColumn(NextColumn(NextColumn(NextColumn(NextColumn(c))))) == c
    ensures NextColumn(c) != c
  {
  }

  /// Toggling the order is an involution without a fixed point.
  lemma ToggleOrderInvolution(o: SortOrder)
    ensures ToggleOrder(ToggleOrder(o)) == o
    ensures ToggleOrder(o) != o
  {
  }
}
