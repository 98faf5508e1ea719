/** Laws of parsing and printing hotkeys. */
module HotkeyLaws {
  import opened Jobs
  import opened Hotkeys

  // ----- accepted hotkeys are in normal form ---------------------------------------------

  predicate KeyHasName(key: nat) {
    IsLetterKey(key) || IsFunctionKey(key)
  }

  /** What a text can name: at least one of the four modifiers, nothing else, and one key. */
  predicate Normal(h: Hotkey) {
    h.mods != 0 && h.mods & ALL_BITS == h.mods && KeyHasName(h.key)
  }

  predicate WellRead(t: Token) {
    t.Key? ==> KeyHasName(t.key)
  }

  lemma ReadsWell(raw: string)
    ensures WellRead(Read(raw))
  {
  }

  lemma AllReadWell(parts: seq<string>)
    ensures forall i :: 0 <= i < |parts| ==> WellRead(ReadAll(parts)[i])
  {
    forall i | 0 <= i < |parts| ensures WellRead(ReadAll(parts)[i]) {
      ReadsWell(parts[i]);
    }
  }

  predicate Names(tokens: seq<Token>, m: Modifier) {
    exists i :: 0 <= i < |tokens| && tokens[i] == Mod(m)
  }

  predicate HasKey(tokens: seq<Token>) {
    exists i :: 0 <= i < |tokens| && tokens[i].Key?
  }

  /** A modifier is in the result exactly when some token names it. */
  lemma {:induction false} ModsAreNamed(tokens: seq<Token>, m: Modifier)
    ensures Mods(tokens) & Bit(m) != 0 <==> Names(tokens, m)
    ensures Mods(tokens) & ALL_BITS == Mods(tokens)
  {
    if tokens != [] {
      var n := |tokens| - 1;
      ModsAreNamed(tokens[..n], m);
      NamesLast(tokens, m);
      if tokens[n].Mod? {
        OrBits(Mods(tokens[..n]), tokens[n].modifier, m);
      }
    }
  }

  lemma NamesLast(tokens: seq<Token>, m: Modifier)
    requires tokens != []
    ensures Names(tokens, m) <==> Names(tokens[..|tokens| - 1], m) || tokens[|tokens| - 1] == Mod(m)
  {
    var before := tokens[..|tokens| - 1];
    assert forall i :: 0 <= i < |before| ==> before[i] == tokens[i];
  }

  lemma OrBits(mods: bv32, last: Modifier, m: Modifier)
    requires mods & ALL_BITS == mods
    ensures (mods | Bit(last)) & ALL_BITS == mods | Bit(last)
    ensures (mods | Bit(last)) & Bit(m) != 0 <==> mods & Bit(m) != 0 || last == m
  {
  }

  predicate IsLastKey(tokens: seq<Token>, i: int) {
    0 <= i < |tokens| && tokens[i].Key? && forall j :: i < j < |tokens| ==> !tokens[j].Key?
  }

  /** The key in the result is the one that the last key token names. */
  lemma {:induction false} LastKeyIsLast(tokens: seq<Token>)
    requires forall i :: 0 <= i < |tokens| ==> WellRead(tokens[i])
    ensures LastKey(tokens) == 0 <==> !HasKey(tokens)
    ensures forall i :: IsLastKey(tokens, i) ==> LastKey(tokens) == tokens[i].key
    ensures LastKey(tokens) == 0 || KeyHasName(LastKey(tokens))
  {
    if tokens != [] {
      var n := |tokens| - 1;
      var before := tokens[..n];
      LastKeyIsLast(before);
      assert forall i :: 0 <= i < n ==> before[i] == tokens[i];
    }
  }

  /** What a text must name to be accepted. */
  predicate Names1Key1Mod(tokens: seq<Token>) {
    AllGood(tokens) && HasKey(tokens) && exists m :: Names(tokens, m)
  }

  /** A text is accepted if and only if all its tokens mean something and they name a key
      and a modifier. */
  lemma AcceptedIff(s: string)
    ensures Parsed(s).Ok? <==> Names1Key1Mod(ReadAll(Split(s)))
  {
    var tokens := ReadAll(Split(s));
    AllReadWell(Split(s));
    LastKeyIsLast(tokens);
    forall m ensures Mods(tokens) & Bit(m) != 0 <==> Names(tokens, m) {
      ModsAreNamed(tokens, m);
    }
    ModsAreNamed(tokens, Alt);
    NoBits(Mods(tokens));
    OnlyGood(tokens);
  }

  lemma NoBits(mods: bv32)
    requires mods & ALL_BITS == mods
    ensures mods == 0 <==> mods & Bit(Alt) == 0 && mods & Bit(Ctrl) == 0 && mods & Bit(Shift) == 0 && mods & Bit(Win) == 0
  {
  }

  /** Only hotkeys in normal form come out of parsing: exactly the modifiers that are
      named, and the key that is named last. */
  lemma AcceptedIsNormal(s: string, h: Hotkey)
    requires Parsed(s) == Ok(h)
    ensures Normal(h)
    ensures forall m :: h.mods & Bit(m) != 0 <==> Names(ReadAll(Split(s)), m)
    ensures forall i :: IsLastKey(ReadAll(Split(s)), i) ==> ReadAll(Split(s))[i] == Key(h.key)
  {
    var tokens := ReadAll(Split(s));
    AllReadWell(Split(s));
    LastKeyIsLast(tokens);
    forall m ensures h.mods & Bit(m) != 0 <==> Names(tokens, m) {
      ModsAreNamed(tokens, m);
    }
    ModsAreNamed(tokens, Alt);
  }

  lemma {:induction false} OnlyGood(tokens: seq<Token>)
    ensures FirstBad(tokens) == |tokens| <==> AllGood(tokens)
    ensures FirstBad(tokens) <= |tokens|
    ensures FirstBad(tokens) < |tokens| ==> !Good(tokens[FirstBad(tokens)])
  {
    if tokens != [] {
      OnlyGood(tokens[1..]);
      assert AllGood(tokens) <==> Good(tokens[0]) && AllGood(tokens[1..]) by {
        assert forall i :: 1 <= i < |tokens| ==> tokens[i] == tokens[1..][i - 1];
      }
    }
  }

  // ----- printing and parsing again ------------------------------------------------------

  predicate NoPlus(s: string) {
    forall i :: 0 <= i < |s| ==> s[i] != '+'
  }

  lemma {:induction false} SplitPlain(s: string)
    requires NoPlus(s)
    ensures Split(s) == [s]
  {
    if s != [] {
      SplitPlain(s[1..]);
      assert [s[0]] + s[1..] == s;
    }
  }

  lemma {:induction false} SplitFirst(part: string, rest: string)
    requires NoPlus(part)
    ensures Split(part + "+" + rest) == [part] + Split(rest)
  {
    var s := part + "+" + rest;
    if part == "" {
      assert s[1..] == rest;
    } else {
      assert s[1..] == part[1..] + "+" + rest;
      SplitFirst(part[1..], rest);
      assert [part[0]] + part[1..] == part;
    }
  }

  /** Splitting undoes joining. */
  lemma {:induction false} SplitJoin(parts: seq<string>)
    requires parts != [] && forall i :: 0 <= i < |parts| ==> NoPlus(parts[i])
    ensures Split(Join(parts)) == parts
  {
    if |parts| == 1 {
      SplitPlain(parts[0]);
    } else {
      SplitJoin(parts[1..]);
      SplitFirst(parts[0], Join(parts[1..]));
    }
  }

  /** A text without blanks at its ends is not trimmed. */
  lemma TrimSolid(s: string)
    requires s != [] && !IsSpace(s[0]) && !IsSpace(s[|s| - 1])
    ensures Trim(s) == s
  {
  }

  lemma ReadsMod(m: Modifier, name: string)
    requires (m, name) in {(Ctrl, "Ctrl"), (Alt, "Alt"), (Shift, "Shift"), (Win, "Win")}
    ensures Read(name) == Mod(m) && NoPlus(name)
  {
    match m
    case Ctrl => LowerCtrl(); ReadsModName(m, name);
    case Alt => LowerAlt(); ReadsModName(m, name);
    case Shift => LowerShift(); ReadsModName(m, name);
    case Win => LowerWin(); ReadsModName(m, name);
  }

  lemma ReadsModName(m: Modifier, name: string)
    requires name != "" && !IsSpace(name[0]) && !IsSpace(name[|name| - 1]) && ModifierOf(Lower(name)) == Some(m)
    ensures Read(name) == Mod(m)
  {
    TrimSolid(name);
  }

  lemma LowerCtrl()
    ensures ModifierOf(Lower("Ctrl")) == Some(Ctrl) && NoPlus("Ctrl")
  {
    assert Lower("Ctrl") == "ctrl";
  }

  lemma LowerAlt()
    ensures ModifierOf(Lower("Alt")) == Some(Alt) && NoPlus("Alt")
  {
    assert Lower("Alt") == "alt";
  }

  lemma LowerShift()
    ensures ModifierOf(Lower("Shift")) == Some(Shift) && NoPlus("Shift")
  {
    assert Lower("Shift") == "shift";
  }

  lemma LowerWin()
    ensures ModifierOf(Lower("Win")) == Some(Win) && NoPlus("Win")
  {
    assert Lower("Win") == "win";
  }

  lemma {:induction false} DecimalValue(n: nat)
    ensures IsNumber(Decimal(n)) && Value(Decimal(n)) == n
  {
    var s := Decimal(n);
    if n >= 10 {
      DecimalValue(n / 10);
      assert s[..|s| - 1] == Decimal(n / 10);
    } else {
      assert s[..0] == "";
    }
  }

  lemma {:induction false} HexSolid(n: nat)
    ensures Hex(n) != "" && NoPlus(Hex(n)) && !IsSpace(Hex(n)[|Hex(n)| - 1])
  {
    if n >= 16 {
      HexSolid(n / 16);
    }
  }

  /** A key reads back from its text exactly when it has a name. */
  lemma ReadsKey(key: nat)
    ensures Read(KeyText(key)) == if KeyHasName(key) then Key(key) else Unknown(KeyText(key))
    ensures NoPlus(KeyText(key))
  {
    if IsLetterKey(key) {
      ReadsLetter(key);
    } else if IsFunctionKey(key) {
      ReadsFunction(key);
    } else {
      ReadsNoName(key);
    }
  }

  lemma ReadsLetter(key: nat)
    requires IsLetterKey(key)
    ensures Read(KeyText(key)) == Key(key) && NoPlus(KeyText(key))
  {
    var s := KeyText(key);
    TrimSolid(s);
    assert |s| == 1 && |Lower(s)| == 1 && Lower(s)[0] as int == key + 32;
  }

  lemma ReadsFunction(key: nat)
    requires IsFunctionKey(key)
    ensures Read(KeyText(key)) == Key(key) && NoPlus(KeyText(key))
  {
    var number := Decimal(key - KEY_F1 + 1);
    DecimalNumber(key - KEY_F1 + 1);
    NamesFunction(number);
    ReadsKeyName("F" + number);
    assert NoPlus(number);
  }

  lemma ReadsKeyName(tok: string)
    requires tok != "" && !IsSpace(tok[0]) && !IsSpace(tok[|tok| - 1])
    requires ModifierOf(Lower(tok)).None? && KeyOf(tok) > 0
    ensures Read(tok) == Key(KeyOf(tok))
  {
    TrimSolid(tok);
  }

  lemma NamesFunction(number: string)
    requires IsNumber(number) && FunctionNumber(number) > 0
    ensures ModifierOf(Lower("F" + number)).None? && KeyOf("F" + number) == KEY_F1 - 1 + FunctionNumber(number)
  {
    var low := Lower("F" + number);
    assert low[0] == 'f' && low[1] == number[0];
    assert low[1..] == number;
  }

  lemma DecimalNumber(n: nat)
    ensures IsNumber(Decimal(n)) && FunctionNumber(Decimal(n)) == if n <= 12 then n else 0
  {
    DecimalValue(n);
  }

  lemma ReadsNoName(key: nat)
    requires !KeyHasName(key)
    ensures Read(KeyText(key)) == Unknown(KeyText(key)) && NoPlus(KeyText(key))
  {
    var s := KeyText(key);
    HexSolid(key);
    TrimSolid(s);
    var low := Lower(s);
    assert low[0] == 'v' && low[2] == '_' && |low| > 5;
  }

  lemma ReadAllPlus(parts: seq<string>, more: seq<string>)
    ensures ReadAll(parts + more) == ReadAll(parts) + ReadAll(more)
  {
  }

  predicate OnlyMods(tokens: seq<Token>) {
    forall i :: 0 <= i < |tokens| ==> tokens[i].Mod?
  }

  /** The texts name exactly the modifiers in ms. */
  ghost predicate ReadsAs(texts: seq<string>, ms: set<Modifier>) {
    && OnlyMods(ReadAll(texts)) && (forall m :: Names(ReadAll(texts), m) <==> m in ms)
    && forall i :: 0 <= i < |texts| ==> NoPlus(texts[i])
  }

  lemma ReadsBoth(texts: seq<string>, ms: set<Modifier>, more: seq<string>, ns: set<Modifier>)
    requires ReadsAs(texts, ms) && ReadsAs(more, ns)
    ensures ReadsAs(texts + more, ms + ns)
  {
    ReadAllPlus(texts, more);
    forall m ensures Names(ReadAll(texts + more), m) <==> m in ms + ns {
      NamesPlus(ReadAll(texts), ReadAll(more), m);
    }
  }

  lemma NamesPlus(a: seq<Token>, b: seq<Token>, m: Modifier)
    ensures Names(a + b, m) <==> Names(a, m) || Names(b, m)
  {
    assert Names(a, m) <==> Mod(m) in a;
    assert Names(b, m) <==> Mod(m) in b;
    assert Names(a + b, m) <==> Mod(m) in a + b;
  }

  function OneOf(mods: bv32, m: Modifier): set<Modifier> {
    if mods & Bit(m) != 0 then {m} else {}
  }

  lemma ReadsModText(mods: bv32, m: Modifier, name: string)
    requires (m, name) in {(Ctrl, "Ctrl"), (Alt, "Alt"), (Shift, "Shift"), (Win, "Win")}
    ensures ReadsAs(ModText(mods, m, name), OneOf(mods, m))
  {
    if mods & Bit(m) != 0 {
      ReadsOneMod(m, name);
    }
  }

  lemma ReadsOneMod(m: Modifier, name: string)
    requires (m, name) in {(Ctrl, "Ctrl"), (Alt, "Alt"), (Shift, "Shift"), (Win, "Win")}
    ensures ReadsAs([name], {m})
  {
    ReadsMod(m, name);
    assert ReadAll([name])[0] == Mod(m);
  }

  lemma ReadsFour(c: seq<string>, cs: set<Modifier>, a: seq<string>, al: set<Modifier>,
                  s: seq<string>, ss: set<Modifier>, w: seq<string>, ws: set<Modifier>)
    requires ReadsAs(c, cs) && ReadsAs(a, al) && ReadsAs(s, ss) && ReadsAs(w, ws)
    ensures ReadsAs(c + a + s + w, cs + al + ss + ws)
  {
    ReadsBoth(c, cs, a, al);
    ReadsBoth(c + a, cs + al, s, ss);
    ReadsBoth(c + a + s, cs + al + ss, w, ws);
  }

  function BitsIn(mods: bv32): set<Modifier> {
    OneOf(mods, Ctrl) + OneOf(mods, Alt) + OneOf(mods, Shift) + OneOf(mods, Win)
  }

  lemma ModTextsNamed(mods: bv32)
    ensures ReadsAs(ModTexts(mods), BitsIn(mods))
  {
    ReadsModText(mods, Ctrl, "Ctrl");
    ReadsModText(mods, Alt, "Alt");
    ReadsModText(mods, Shift, "Shift");
    ReadsModText(mods, Win, "Win");
    ReadsFour(ModText(mods, Ctrl, "Ctrl"), OneOf(mods, Ctrl), ModText(mods, Alt, "Alt"), OneOf(mods, Alt),
              ModText(mods, Shift, "Shift"), OneOf(mods, Shift), ModText(mods, Win, "Win"), OneOf(mods, Win));
  }

  lemma BitsAreIn(mods: bv32, m: Modifier)
    ensures m in BitsIn(mods) <==> (mods & ALL_BITS) & Bit(m) != 0
    ensures (mods & ALL_BITS) & ALL_BITS == mods & ALL_BITS
  {
  }

  /** The modifiers read back from their names are those among the four known ones. */
  lemma ReadsModTexts(mods: bv32)
    ensures Mods(ReadAll(ModTexts(mods))) == mods & ALL_BITS
  {
    var tokens := ReadAll(ModTexts(mods));
    ModTextsNamed(mods);
    ModsAreNamed(tokens, Alt);
    ModsAreNamed(tokens, Ctrl);
    ModsAreNamed(tokens, Shift);
    ModsAreNamed(tokens, Win);
    BitsAreIn(mods, Alt);
    BitsAreIn(mods, Ctrl);
    BitsAreIn(mods, Shift);
    BitsAreIn(mods, Win);
    SameBits(Mods(tokens), mods & ALL_BITS);
  }

  /** What comes of parsing what was printed. */
  function Reparsed(h: Hotkey): Result {
    if !KeyHasName(h.key) then Err(UnknownToken(KeyText(h.key)))
    else if h.mods & ALL_BITS == 0 then Err(NoModifier)
    else Ok(Hotkey(h.mods & ALL_BITS, h.key))
  }

  /** Printing and parsing again: a key without a name and a hotkey without a known
      modifier are refused, unknown modifier bits are dropped, all else is kept. */
  lemma PrintThenParse(h: Hotkey)
    ensures Parsed(Printed(h)) == Reparsed(h)
  {
    var texts := ModTexts(h.mods);
    var parts := texts + [KeyText(h.key)];
    ReadsModTexts(h.mods);
    ModTextsNamed(h.mods);
    ReadsKey(h.key);
    SplitJoin(parts);
    ReadAllPlus(texts, [KeyText(h.key)]);
    assert ReadAll([KeyText(h.key)]) == [Read(KeyText(h.key))];
    KeyAfterMods(ReadAll(texts), Read(KeyText(h.key)));
  }

  lemma KeyAfterMods(mods: seq<Token>, last: Token)
    requires OnlyMods(mods) && !last.Mod? && !last.Empty? && (last.Key? ==> last.key != 0)
    ensures Meaning(mods + [last])
         == if last.Unknown? then Err(UnknownToken(last.text))
            else if Mods(mods) == 0 then Err(NoModifier) else Ok(Hotkey(Mods(mods), last.key))
  {
    var tokens := mods + [last];
    assert tokens[..|mods|] == mods;
    if last.Key? {
      FirstBadAt(tokens, |tokens|);
    } else {
      FirstBadAt(tokens, |mods|);
    }
  }

  /** The round trip holds for the hotkeys in normal form and for no others. */
  lemma RoundTripIff(h: Hotkey)
    ensures Parsed(Printed(h)) == Ok(h) <==> Normal(h)
  {
    PrintThenParse(h);
  }

  /** Whatever was parsed is printed so that it parses to the same. */
  lemma ParsePrintParse(s: string)
    requires Parsed(s).Ok?
    ensures Parsed(Printed(Parsed(s).value)) == Parsed(s)
  {
    AcceptedIsNormal(s, Parsed(s).value);
    RoundTripIff(Parsed(s).value);
  }

  // ----- what does not matter ------------------------------------------------------------

  lemma SameRead(raw: string, other: string)
    requires Lower(Trim(raw)) == Lower(Trim(other)) && Good(Read(raw))
    ensures Read(other) == Read(raw)
  {
    assert |Trim(raw)| == |Lower(Trim(raw))| && |Trim(other)| == |Lower(Trim(other))|;
  }

  /** Neither the case of the letters nor the blanks around a token matter. */
  lemma SameReading(parts: seq<string>, other: seq<string>)
    requires parts != [] && |parts| == |other|
    requires forall i :: 0 <= i < |parts| ==> NoPlus(parts[i]) && NoPlus(other[i])
    requires forall i :: 0 <= i < |parts| ==> Lower(Trim(parts[i])) == Lower(Trim(other[i]))
    ensures Parsed(Join(parts)).Ok? ==> Parsed(Join(other)) == Parsed(Join(parts))
  {
    SplitJoin(parts);
    SplitJoin(other);
    if Parsed(Join(parts)).Ok? {
      OnlyGood(ReadAll(parts));
      forall i | 0 <= i < |parts| ensures Read(other[i]) == Read(parts[i]) {
        assert Good(ReadAll(parts)[i]);
        SameRead(parts[i], other[i]);
      }
      assert ReadAll(other) == ReadAll(parts);
    }
  }

  predicate OneKey(tokens: seq<Token>) {
    forall i, j :: 0 <= i < |tokens| && 0 <= j < |tokens| && tokens[i].Key? && tokens[j].Key? ==> tokens[i] == tokens[j]
  }

  /** Nor, when the tokens name one key, does their order or how often they are said:
      texts that name the same tokens mean the same. */
  lemma SameTokens(s: string, t: string)
    requires Parsed(s).Ok? && OneKey(ReadAll(Split(s)))
    requires forall x :: x in ReadAll(Split(s)) <==> x in ReadAll(Split(t))
    ensures Parsed(t) == Parsed(s)
  {
    var a, b := ReadAll(Split(s)), ReadAll(Split(t));
    OnlyGood(a);
    OnlyGood(b);
    assert AllGood(b) by {
      assert forall x :: x in a ==> Good(x);
    }
    SameNamed(a, b);
    AllReadWell(Split(s));
    AllReadWell(Split(t));
    KeyIsThere(a);
    KeyIsThere(b);
  }

  lemma SameNamed(a: seq<Token>, b: seq<Token>)
    requires forall x :: x in a <==> x in b
    ensures Mods(a) == Mods(b)
  {
    forall m ensures Mods(a) & Bit(m) != 0 <==> Mods(b) & Bit(m) != 0 {
      ModsAreNamed(a, m);
      ModsAreNamed(b, m);
      assert Names(a, m) <==> Mod(m) in a;
      assert Names(b, m) <==> Mod(m) in b;
    }
    ModsAreNamed(a, Alt);
    ModsAreNamed(b, Alt);
    SameBits(Mods(a), Mods(b));
  }

  lemma SameBits(a: bv32, b: bv32)
    requires a & ALL_BITS == a && b & ALL_BITS == b
    requires a & Bit(Alt) != 0 <==> b & Bit(Alt) != 0
    requires a & Bit(Ctrl) != 0 <==> b & Bit(Ctrl) != 0
    requires a & Bit(Shift) != 0 <==> b & Bit(Shift) != 0
    requires a & Bit(Win) != 0 <==> b & Bit(Win) != 0
    ensures a == b
  {
  }

  lemma {:induction false} KeyIsThere(tokens: seq<Token>)
    requires forall i :: 0 <= i < |tokens| ==> WellRead(tokens[i])
    ensures LastKey(tokens) != 0 ==> Key(LastKey(tokens)) in tokens
    ensures forall key :: Key(key) in tokens ==> LastKey(tokens) != 0
  {
    if tokens != [] {
      KeyIsThere(tokens[..|tokens| - 1]);
      assert tokens == tokens[..|tokens| - 1] + [tokens[|tokens| - 1]];
    }
  }
}
