/** The symbol catalogue (themes/symbols.js): 130 symbol ids in five bands
    of 26 (plain, double letter, triple letter, double word, triple word), each
    id carrying the letter and value of entry `id mod 26` of the letter table. */
module Symbols {
  import opened Wrappers
  import opened Tiles
  import Text
  import Config

  /** An entry of LETTER_PROPERTIES. */
  datatype LetterProps = LetterProps(letter: char, value: int, frequency: int)

  /** LETTER_PROPERTIES in its key order, A to Z. */
  const LetterProperties: seq<LetterProps> := [
    LetterProps('A', 1, 9),
    LetterProps('B', 3, 2),
    LetterProps('C', 3, 2),
    LetterProps('D', 2, 4),
    LetterProps('E', 1, 12),
    LetterProps('F', 4, 2),
    LetterProps('G', 2, 3),
    LetterProps('H', 4, 2),
    LetterProps('I', 1, 9),
    LetterProps('J', 8, 1),
    LetterProps('K', 5, 1),
    LetterProps('L', 1, 4),
    LetterProps('M', 3, 2),
    LetterProps('N', 1, 6),
    LetterProps('O', 1, 8),
    LetterProps('P', 3, 2),
    LetterProps('Q', 10, 1),
    LetterProps('R', 1, 6),
    LetterProps('S', 1, 4),
    LetterProps('T', 1, 6),
    LetterProps('U', 1, 4),
    LetterProps('V', 4, 2),
    LetterProps('W', 4, 2),
    LetterProps('X', 8, 1),
    LetterProps('Y', 4, 2),
    LetterProps('Z', 10, 1)
  ]

  /** The `type` string of a tile kind, absent for a plain letter. */
  function KindType(kind: TileKind): (t: Option<string>)
    ensures t.None? <==> kind == Plain
  {
    match kind
    case Plain => None
    case DoubleLetter => Some("dl")
    case TripleLetter => Some("tl")
    case DoubleWord => Some("dw")
    case TripleWord => Some("tw")
  }

  /** The kind of band `b` of the catalogue (ids 26b .. 26b+25). */
  function BandKind(b: nat): TileKind
  {
    if b == 0 then Plain
    else if b == 1 then DoubleLetter
    else if b == 2 then TripleLetter
    else if b == 3 then DoubleWord
    else TripleWord
  }

  /** The table is in A..Z order. */
  lemma LetterPropertiesOrder()
    ensures |LetterProperties| == 26
    ensures forall i :: 0 <= i < 26 ==> LetterProperties[i].letter as int == 'A' as int + i
  {
  }

  /** The letter table of the configuration agrees with LETTER_PROPERTIES on letters and values. */
  lemma ConfigAgreesWithLetterProperties()
    ensures forall n: nat :: n < 26 ==>
      n in Config.SymbolNumberMultipliers &&
      Config.SymbolNumberMultipliers[n].letter == LetterProperties[n].letter &&
      Config.SymbolNumberMultipliers[n].value == LetterProperties[n].value
  {
    LetterPropertiesOrder();
    assert Config.LetterValues == seq(26, i requires 0 <= i < 26 => LetterProperties[i].value);
  }

  /** generateSymbolNumberMultipliers: ids 0..129, five bands over LETTER_PROPERTIES. */
  method GenerateSymbolNumberMultipliers() returns (result: SymbolMapping)
    ensures forall n: nat :: n in result <==> n < 130
    ensures forall n :: n in result ==>
      result[n].letter == LetterProperties[n % 26].letter && result[n].value == LetterProperties[n % 26].value
    ensures forall n :: n in result ==> result[n].kind == BandKind(n / 26)
    ensures forall n :: n in result ==> (result[n].kind == Plain <==> n < 26)
    ensures forall n :: n in result ==> result[n].pointValue == if n < 26 then Some(result[n].value) else None
  {
    result := GenerateMultipliersFrom(LetterProperties);
  }

  /** The loop of generateSymbolNumberMultipliers over the entries of a
      26-letter table: letter index i writes ids i, i+26, i+52, i+78, i+104. */
  method GenerateMultipliersFrom(letters: seq<LetterProps>) returns (result: SymbolMapping)
    requires |letters| == 26
    ensures forall n: nat :: n in result <==> n < 130
    ensures forall n :: n in result ==>
      result[n].letter == letters[n % 26].letter && result[n].value == letters[n % 26].value
    ensures forall n :: n in result ==> result[n].kind == BandKind(n / 26)
    ensures forall n :: n in result ==> (result[n].kind == Plain <==> n < 26)
    ensures forall n :: n in result ==> result[n].pointValue == if n < 26 then Some(result[n].value) else None
  {
    result := map[];
    for index := 0 to 26
      invariant forall n: nat :: n in result <==> n < 130 && n % 26 < index
      invariant forall n :: n in result ==>
        result[n].letter == letters[n % 26].letter && result[n].value == letters[n % 26].value
      invariant forall n :: n in result ==> result[n].kind == BandKind(n / 26)
      invariant forall n :: n in result ==> result[n].pointValue == if n < 26 then Some(result[n].value) else None
    {
      var props := letters[index];
      result := result[index := SymbolInfo(props.letter, props.value, Plain, Some(props.value))];
      result := result[index + 26 := SymbolInfo(props.letter, props.value, DoubleLetter, None)];
      result := result[index + 52 := SymbolInfo(props.letter, props.value, TripleLetter, None)];
      result := result[index + 78 := SymbolInfo(props.letter, props.value, DoubleWord, None)];
      result := result[index + 104 := SymbolInfo(props.letter, props.value, TripleWord, None)];
      BandSplit(index);
    }
  }

  /** The ids n < 130 with n mod 26 == i are exactly the five band entries of i. */
  lemma BandSplit(i: nat)
    requires i < 26
    ensures forall n: nat :: n < 130 && n % 26 == i <==>
      n == i || n == i + 26 || n == i + 52 || n == i + 78 || n == i + 104
  {
    forall n: nat | n < 130
      ensures n % 26 == i <==> n == i || n == i + 26 || n == i + 52 || n == i + 78 || n == i + 104
    {
      assert n == 26 * (n / 26) + n % 26;
      assert n / 26 < 5;
    }
  }

  /** One symbol of a theme. */
  datatype ThemeSymbol = ThemeSymbol(
    name: string,
    path: string,
    imagePath: string,
    letter: char,
    value: int,
    pointValue: Option<int>,
    kind: TileKind,
    symbolIndex: nat,
    tileBackground: string,
    backgroundColor: string,
    fontColor: Option<string>,
    specialText: Option<string>)

  /** The two-letter code shown on a special tile: the upper-cased `type`. */
  function SpecialCode(kind: TileKind): (code: string)
    requires kind != Plain
    ensures code == Text.Upper(KindType(kind).value)
  {
    match kind
    case DoubleLetter => "DL"
    case TripleLetter => "TL"
    case DoubleWord => "DW"
    case TripleWord => "TW"
  }

  /** Tile colours by kind: background, and font colour if any. */
  function BackgroundColor(kind: TileKind): string
  {
    match kind
    case Plain => "#e8d0aa"
    case DoubleLetter => "#e8d0aa"
    case TripleLetter => "#e8d0aa"
    case DoubleWord => "#0073cf"
    case TripleWord => "#ff0000"
  }

  function FontColor(kind: TileKind): Option<string>
  {
    match kind
    case Plain => None
    case DoubleLetter => Some("#0073cf")
    case TripleLetter => Some("#ff0000")
    case DoubleWord => Some("#ffffff")
    case TripleWord => Some("#ffffff")
  }

  /** What generateThemeSymbols puts at index k: the letter and value of
      LETTER_PROPERTIES[k mod 26], the kind of band k / 26, the band's name
      suffix, special text and colours, and the base tile path everywhere. */
  ghost predicate ThemeEntry(letters: seq<LetterProps>, s: ThemeSymbol, k: nat, baseTilePath: string)
  {
    |letters| == 26 && k < 130 &&
    var p := letters[k % 26];
    s.symbolIndex == k && s.letter == p.letter && s.value == p.value &&
    s.kind == BandKind(k / 26) &&
    s.path == baseTilePath && s.imagePath == baseTilePath && s.tileBackground == baseTilePath &&
    (if k < 26 then s.name == [p.letter] && s.pointValue == Some(p.value) && s.specialText == None
     else (s.name == [p.letter] + " " + SpecialCode(s.kind) && s.pointValue == None &&
       s.specialText == Some(SpecialCode(s.kind)))) &&
    s.backgroundColor == BackgroundColor(s.kind) && s.fontColor == FontColor(s.kind)
  }

  /** generateThemeSymbols: 130 symbols in id order over LETTER_PROPERTIES, no separate special symbols. */
  method GenerateThemeSymbols(baseTilePath: string) returns (symbols: seq<ThemeSymbol>, specialSymbols: seq<ThemeSymbol>)
    ensures |symbols| == 130 && specialSymbols == []
    ensures forall k :: 0 <= k < |symbols| ==> symbols[k].symbolIndex == k
    ensures forall k :: 0 <= k < |symbols| ==> ThemeEntry(LetterProperties, symbols[k], k, baseTilePath)
  {
    symbols, specialSymbols := GenerateThemeSymbolsFrom(LetterProperties, baseTilePath);
  }

  /** The five passes of generateThemeSymbols over the entries of a 26-letter table, one per band. */
  method GenerateThemeSymbolsFrom(letters: seq<LetterProps>, baseTilePath: string)
    returns (symbols: seq<ThemeSymbol>, specialSymbols: seq<ThemeSymbol>)
    requires |letters| == 26
    ensures |symbols| == 130 && specialSymbols == []
    ensures forall k :: 0 <= k < |symbols| ==> symbols[k].symbolIndex == k
    ensures forall k :: 0 <= k < |symbols| ==> ThemeEntry(letters, symbols[k], k, baseTilePath)
  {
    symbols := [];
    // band 0: plain letters
    for index := 0 to 26
      invariant |symbols| == index
      invariant forall k :: 0 <= k < |symbols| ==> ThemeEntry(letters, symbols[k], k, baseTilePath)
    {
      var props := letters[index];
      symbols := symbols + [ThemeSymbol([props.letter], baseTilePath, baseTilePath, props.letter, props.value,
        Some(props.value), Plain, index, baseTilePath, "#e8d0aa", None, None)];
    }

    // band 1: DL
    for index := 0 to 26
      invariant |symbols| == 26 + index
      invariant forall k :: 0 <= k < |symbols| ==> ThemeEntry(letters, symbols[k], k, baseTilePath)
    {
      var props := letters[index];
      symbols := symbols + [ThemeSymbol([props.letter] + " DL", baseTilePath, baseTilePath, props.letter, props.value,
        None, DoubleLetter, index + 26, baseTilePath, "#e8d0aa", Some("#0073cf"), Some("DL"))];
    }

    // band 2: TL
    for index := 0 to 26
      invariant |symbols| == 52 + index
      invariant forall k :: 0 <= k < |symbols| ==> ThemeEntry(letters, symbols[k], k, baseTilePath)
    {
      var props := letters[index];
      symbols := symbols + [ThemeSymbol([props.letter] + " TL", baseTilePath, baseTilePath, props.letter, props.value,
        None, TripleLetter, index + 52, baseTilePath, "#e8d0aa", Some("#ff0000"), Some("TL"))];
    }

    // band 3: DW
    for index := 0 to 26
      invariant |symbols| == 78 + index
      invariant forall k :: 0 <= k < |symbols| ==> ThemeEntry(letters, symbols[k], k, baseTilePath)
    {
      var props := letters[index];
      symbols := symbols + [ThemeSymbol([props.letter] + " DW", baseTilePath, baseTilePath, props.letter, props.value,
        None, DoubleWord, index + 78, baseTilePath, "#0073cf", Some("#ffffff"), Some("DW"))];
    }

    // band 4: TW
    for index := 0 to 26
      invariant |symbols| == 104 + index
      invariant forall k :: 0 <= k < |symbols| ==> ThemeEntry(letters, symbols[k], k, baseTilePath)
    {
      var props := letters[index];
      symbols := symbols + [ThemeSymbol([props.letter] + " TW", baseTilePath, baseTilePath, props.letter, props.value,
        None, TripleWord, index + 104, baseTilePath, "#ff0000", Some("#ffffff"), Some("TW"))];
    }

    specialSymbols := [];
  }

  /** The theme list and the id mapping describe the same symbol at every id. */
  lemma ThemeAgreesWithMapping(letters: seq<LetterProps>, base: string, s: ThemeSymbol, k: nat, mapping: SymbolMapping)
    requires ThemeEntry(letters, s, k, base)
    requires forall n: nat :: n in mapping <==> n < 130
    requires forall n :: n in mapping ==>
      mapping[n].letter == letters[n % 26].letter && mapping[n].value == letters[n % 26].value
    requires forall n :: n in mapping ==> mapping[n].kind == BandKind(n / 26)
    ensures k in mapping && mapping[k].letter == s.letter && mapping[k].value == s.value && mapping[k].kind == s.kind
  {
  }
}
