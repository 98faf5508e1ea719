/** What hotkeys look like as text: names, masks, key codes and errors, letter by letter. */
module HotkeyText {
  import opened Jobs
  import opened Hotkeys
  import opened HotkeyLaws

  // ----- pieces of text ------------------------------------------------------------------

  /** Space, tab, line feed, vertical tab, form feed and carriage return. */
  predicate Blank(c: char) {
    c as int in {32, 9, 10, 11, 12, 13}
  }

  predicate AllBlank(s: string) {
    forall i :: 0 <= i < |s| ==> Blank(s[i])
  }

  lemma {:induction false} TrimLeftMeans(s: string) returns (left: string)
    ensures s == left + TrimLeft(s) && AllBlank(left)
    ensures TrimLeft(s) != "" ==> !Blank(TrimLeft(s)[0])
  {
    if s != "" && IsSpace(s[0]) {
      left := TrimLeftMeans(s[1..]);
      left := [s[0]] + left;
    } else {
      left := "";
    }
  }

  lemma {:induction false} TrimRightMeans(s: string) returns (right: string)
    ensures s == TrimRight(s) + right && AllBlank(right)
    ensures TrimRight(s) != "" ==> !Blank(TrimRight(s)[|TrimRight(s)| - 1])
  {
    if s != "" && IsSpace(s[|s| - 1]) {
      right := TrimRightMeans(s[..|s| - 1]);
      right := right + [s[|s| - 1]];
    } else {
      right := "";
    }
  }

  /** Trimming removes blanks at the two ends, and all of them. */
  lemma TrimMeans(s: string) returns (left: string, right: string)
    ensures s == left + Trim(s) + right && AllBlank(left) && AllBlank(right)
    ensures Trim(s) != "" ==> !Blank(Trim(s)[0]) && !Blank(Trim(s)[|Trim(s)| - 1])
  {
    left := TrimLeftMeans(s);
    right := TrimRightMeans(TrimLeft(s));
    assert Trim(s) != "" ==> Trim(s)[0] == TrimLeft(s)[0];
  }

  /** Lower-casing turns A to Z into a to z and leaves all else alone. */
  lemma LowerMeans(s: string, i: nat)
    requires i < |s|
    ensures |Lower(s)| == |s|
    ensures Lower(s)[i] as int == if 65 <= s[i] as int <= 90 then s[i] as int + 32 else s[i] as int
  {
  }

  /** The pieces are what stands between the plus signs. */
  lemma {:induction false} JoinSplit(s: string)
    ensures Join(Split(s)) == s && forall i :: 0 <= i < |Split(s)| ==> NoPlus(Split(s)[i])
  {
    if s != "" {
      var rest := Split(s[1..]);
      JoinSplit(s[1..]);
      assert s == [s[0]] + s[1..];
      if s[0] != '+' {
        assert Split(s) == [[s[0]] + rest[0]] + rest[1..];
        JoinFirst(s[0], rest);
      }
    }
  }

  lemma JoinFirst(c: char, parts: seq<string>)
    requires parts != []
    ensures Join([[c] + parts[0]] + parts[1..]) == [c] + Join(parts)
  {
    var longer := [[c] + parts[0]] + parts[1..];
    assert longer[1..] == parts[1..];
    if |parts| > 1 {
      assert [c] + parts[0] + "+" + Join(parts[1..]) == [c] + (parts[0] + "+" + Join(parts[1..]));
    }
  }

  /** A piece's word: without the blanks around it, in lower case. */
  function Word(piece: string): string {
    Lower(Trim(piece))
  }

  /** Some piece of s is one of the words. */
  predicate Says(s: string, words: set<string>) {
    exists i :: 0 <= i < |Split(s)| && Word(Split(s)[i]) in words
  }

  // ----- modifiers -----------------------------------------------------------------------


  lemma WordIsModifier(piece: string)
    ensures Read(piece) == Mod(Alt) <==> Word(piece) == "alt"
    ensures Read(piece) == Mod(Ctrl) <==> Word(piece) in {"ctrl", "control"}
    ensures Read(piece) == Mod(Shift) <==> Word(piece) == "shift"
    ensures Read(piece) == Mod(Win) <==> Word(piece) in {"win", "super", "meta"}
  {
    assert |Trim(piece)| == |Word(piece)|;
  }

  /** A modifier's bit is in the result exactly when one of its words is said. */
  lemma MaskNamed(s: string, h: Hotkey, m: Modifier, words: set<string>)
    requires Parsed(s) == Ok(h) && forall piece :: Read(piece) == Mod(m) <==> Word(piece) in words
    ensures h.mods & Bit(m) != 0 <==> Says(s, words)
  {
    AcceptedIsNormal(s, h);
    var parts := Split(s);
    assert forall i :: 0 <= i < |parts| ==> ReadAll(parts)[i] == Read(parts[i]);
  }

  lemma AltWords(words: set<string>)
    requires words == {"alt"}
    ensures forall piece :: Read(piece) == Mod(Alt) <==> Word(piece) in words
  {
    forall piece ensures Read(piece) == Mod(Alt) <==> Word(piece) in words {
      WordIsModifier(piece);
    }
  }

  lemma AltSaid(s: string, h: Hotkey, words: set<string>)
    requires Parsed(s) == Ok(h) && words == {"alt"}
    ensures h.mods & 0x1 != 0 <==> Says(s, words)
  {
    AltWords(words);
    MaskNamed(s, h, Alt, words);
  }

  lemma CtrlWords(words: set<string>)
    requires words == {"ctrl", "control"}
    ensures forall piece :: Read(piece) == Mod(Ctrl) <==> Word(piece) in words
  {
    forall piece ensures Read(piece) == Mod(Ctrl) <==> Word(piece) in words {
      WordIsModifier(piece);
    }
  }

  lemma CtrlSaid(s: string, h: Hotkey, words: set<string>)
    requires Parsed(s) == Ok(h) && words == {"ctrl", "control"}
    ensures h.mods & 0x2 != 0 <==> Says(s, words)
  {
    CtrlWords(words);
    MaskNamed(s, h, Ctrl, words);
  }

  lemma ShiftWords(words: set<string>)
    requires words == {"shift"}
    ensures forall piece :: Read(piece) == Mod(Shift) <==> Word(piece) in words
  {
    forall piece ensures Read(piece) == Mod(Shift) <==> Word(piece) in words {
      WordIsModifier(piece);
    }
  }

  lemma ShiftSaid(s: string, h: Hotkey, words: set<string>)
    requires Parsed(s) == Ok(h) && words == {"shift"}
    ensures h.mods & 0x4 != 0 <==> Says(s, words)
  {
    ShiftWords(words);
    MaskNamed(s, h, Shift, words);
  }

  lemma WinWords(words: set<string>)
    requires words == {"win", "super", "meta"}
    ensures forall piece :: Read(piece) == Mod(Win) <==> Word(piece) in words
  {
    forall piece ensures Read(piece) == Mod(Win) <==> Word(piece) in words {
      WordIsModifier(piece);
    }
  }

  lemma WinSaid(s: string, h: Hotkey, words: set<string>)
    requires Parsed(s) == Ok(h) && words == {"win", "super", "meta"}
    ensures h.mods & 0x8 != 0 <==> Says(s, words)
  {
    WinWords(words);
    MaskNamed(s, h, Win, words);
  }

  /** Which mask an accepted text asks Windows for. */
  lemma MaskMeans(s: string, h: Hotkey)
    requires Parsed(s) == Ok(h)
    ensures h.mods & 0x1 != 0 <==> Says(s, {"alt"})
    ensures h.mods & 0x2 != 0 <==> Says(s, {"ctrl", "control"})
    ensures h.mods & 0x4 != 0 <==> Says(s, {"shift"})
    ensures h.mods & 0x8 != 0 <==> Says(s, {"win", "super", "meta"})
    ensures h.mods & 0xFFFF_FFF0 == 0
  {
    AltSaid(s, h, {"alt"});
    CtrlSaid(s, h, {"ctrl", "control"});
    ShiftSaid(s, h, {"shift"});
    WinSaid(s, h, {"win", "super", "meta"});
    AcceptedIsNormal(s, h);
    LowBits(h.mods);
  }

  lemma LowBits(mods: bv32)
    requires mods & ALL_BITS == mods
    ensures mods & 0xFFFF_FFF0 == 0
  {
  }

  // ----- keys ----------------------------------------------------------------------------

  function Zeros(z: nat): string {
    seq(z, _ => '0')
  }

  /** The numbers of the function keys, as they are written. */
  function Digits(n: nat): string
    requires 1 <= n <= 12
  {
    ["1", "2", "3", "4", "5", "6", "7", "8", "9", "10", "11", "12"][n - 1]
  }

  lemma DigitsDecimal(n: nat)
    requires 1 <= n <= 12
    ensures Decimal(n) == Digits(n)
  {
    if n >= 10 {
      assert Decimal(n) == Decimal(1) + [Digit(n % 10)];
    }
  }

  lemma {:induction false} ZeroValue(s: string)
    requires forall i :: 0 <= i < |s| ==> '0' <= s[i] <= '9'
    ensures Value(s) == 0 <==> s == Zeros(|s|)
  {
    if s != "" {
      var init := s[..|s| - 1];
      ZeroValue(init);
      assert s == init + [s[|s| - 1]] && Zeros(|s|) == Zeros(|init|) + ['0'];
    }
  }

  /** A number is written as its decimal digits, with any zeros before them. */
  lemma {:induction false} NumberForm(s: string) returns (z: nat)
    requires IsNumber(s) && Value(s) > 0
    ensures s == Zeros(z) + Decimal(Value(s))
  {
    var init, last := s[..|s| - 1], s[|s| - 1];
    assert s == init + [last];
    if Value(init) == 0 {
      ZeroValue(init);
      z := |init|;
    } else {
      assert init != "";
      z := NumberForm(init);
      assert Decimal(Value(s)) == Decimal(Value(s) / 10) + [Digit(Value(s) % 10)];
    }
  }

  lemma {:induction false} FormValue(z: nat, n: nat)
    ensures IsNumber(Zeros(z) + Decimal(n)) && Value(Zeros(z) + Decimal(n)) == n
  {
    var s := Zeros(z) + Decimal(n);
    DecimalValue(n);
    if n >= 10 {
      FormValue(z, n / 10);
      assert s[..|s| - 1] == Zeros(z) + Decimal(n / 10);
    } else {
      assert s[..|s| - 1] == Zeros(z);
      ZeroValue(Zeros(z));
    }
  }

  /** Which numbers of function keys are understood: 1 to 12, with any zeros before. */
  lemma FunctionNumberMeans(s: string, n: nat)
    requires NoPlus(s) && 1 <= n <= 12
    ensures FunctionNumber(s) == n <==> exists z :: s == Zeros(z) + Digits(n)
  {
    DigitsDecimal(n);
    if FunctionNumber(s) == n {
      var z := NumberForm(s);
      assert s == Zeros(z) + Digits(n);
    }
    forall z | s == Zeros(z) + Digits(n) ensures FunctionNumber(s) == n {
      FormValue(z, n);
    }
  }

  /** The word w stands for the key of code k: a letter, or f and a number. */
  ghost predicate NamesKey(w: string, k: nat) {
    || (|w| == 1 && 'a' <= w[0] <= 'z' && k == 0x41 + (w[0] as int - 'a' as int))
    || (0x70 <= k <= 0x7B && exists z :: w == "f" + (Zeros(z) + Digits(k - 0x6F)))
  }

  lemma KeyOfMeans(tok: string, k: nat)
    requires NoPlus(tok) && k > 0
    ensures KeyOf(tok) == k <==> NamesKey(Lower(tok), k)
  {
    var low := Lower(tok);
    if |low| >= 2 && low[0] == 'f' {
      assert NoPlus(low[1..]) by {
        forall i | 0 <= i < |low| - 1 ensures low[1..][i] != '+' {
          LowerMeans(tok, i + 1);
        }
      }
      FunctionKeyMeans(low, k);
    }
  }

  lemma FunctionKeyMeans(low: string, k: nat)
    requires |low| >= 2 && low[0] == 'f' && NoPlus(low[1..]) && k > 0
    ensures FunctionNumber(low[1..]) > 0 && k == KEY_F1 - 1 + FunctionNumber(low[1..])
            <==> 0x70 <= k <= 0x7B && exists z :: low == "f" + (Zeros(z) + Digits(k - 0x6F))
  {
    if 0x70 <= k <= 0x7B {
      FunctionNumberMeans(low[1..], k - 0x6F);
      assert forall rest :: low == "f" + rest <==> low[1..] == rest by {
        assert low == [low[0]] + low[1..];
        assert forall rest :: ("f" + rest)[1..] == rest;
      }
    }
  }

  // ----- a whole text --------------------------------------------------------------------

  predicate IsModifierWord(w: string) {
    w in {"ctrl", "control", "alt", "shift", "win", "super", "meta"}
  }

  lemma WordIsKey(piece: string, k: nat)
    requires NoPlus(piece) && k > 0
    ensures Read(piece) == Key(k) <==> NamesKey(Word(piece), k)
  {
    var left, right := TrimMeans(piece);
    var tok := Trim(piece);
    assert NoPlus(tok) by {
      assert forall i :: 0 <= i < |tok| ==> tok[i] == piece[|left| + i];
    }
    KeyOfMeans(tok, k);
    KeysAreNoModifiers(Word(piece), k);
  }

  lemma KeysAreNoModifiers(w: string, k: nat)
    ensures NamesKey(w, k) ==> !IsModifierWord(w) && w != ""
    ensures ModifierOf(w).Some? <==> IsModifierWord(w)
  {
    if NamesKey(w, k) && |w| > 1 {
      var z :| w == "f" + (Zeros(z) + Digits(k - 0x6F));
      assert w[0] == 'f';
    }
  }

  /** The piece says something: a modifier or a key. */
  ghost predicate Meaningful(piece: string) {
    IsModifierWord(Word(piece)) || exists k :: NamesKey(Word(piece), k)
  }

  lemma GoodMeans(piece: string)
    requires NoPlus(piece)
    ensures Good(Read(piece)) <==> Meaningful(piece)
    ensures Read(piece).Mod? <==> IsModifierWord(Word(piece))
    ensures Read(piece).Key? <==> exists k :: NamesKey(Word(piece), k)
  {
    KeysAreNoModifiers(Word(piece), 1);
    ReadsWell(piece);
    if Read(piece).Key? {
      WordIsKey(piece, Read(piece).key);
    }
    forall k | NamesKey(Word(piece), k) ensures Read(piece).Key? {
      WordIsKey(piece, k);
    }
  }

  /** A piece that is not meaningful is blank or unknown, and reported as it is written. */
  lemma BadMeans(piece: string)
    ensures Read(piece) == Empty <==> AllBlank(piece)
    ensures Read(piece).Unknown? ==> Read(piece).text == Trim(piece)
  {
    var left, right := TrimMeans(piece);
    if Trim(piece) != "" {
      TrimmedNotBlank(piece);
    }
  }

  lemma TrimmedNotBlank(piece: string)
    requires Trim(piece) != ""
    ensures !AllBlank(piece)
  {
    var left, right := TrimMeans(piece);
    assert piece[|left|] == Trim(piece)[0];
  }

  /** The key of an accepted text is the one that its last key word stands for. */
  lemma KeyMeans(s: string, h: Hotkey) returns (i: nat)
    requires Parsed(s) == Ok(h)
    ensures i < |Split(s)| && NamesKey(Word(Split(s)[i]), h.key)
    ensures forall j, k :: i < j < |Split(s)| ==> !NamesKey(Word(Split(s)[j]), k)
  {
    JoinSplit(s);
    AllReadWell(Split(s));
    var tokens := ReadAll(Split(s));
    i := LastKeyAt(tokens);
    WordIsKey(Split(s)[i], h.key);
    forall j, k | i < j < |Split(s)| ensures !NamesKey(Word(Split(s)[j]), k) {
      GoodMeans(Split(s)[j]);
      assert !tokens[j].Key?;
    }
  }

  lemma {:induction false} LastKeyAt(tokens: seq<Token>) returns (i: nat)
    requires LastKey(tokens) > 0
    ensures i < |tokens| && tokens[i] == Key(LastKey(tokens)) && forall j :: i < j < |tokens| ==> !tokens[j].Key?
  {
    var n := |tokens| - 1;
    if tokens[n].Key? {
      i := n;
    } else {
      i := LastKeyAt(tokens[..n]);
      assert forall j :: 0 <= j < n ==> tokens[..n][j] == tokens[j];
    }
  }

  /** Pieces before position i all say something. */
  ghost predicate MeaningfulBefore(parts: seq<string>, i: int) {
    forall j :: 0 <= j < i && j < |parts| ==> Meaningful(parts[j])
  }

  /** The first piece that says nothing decides what is refused: blank pieces by their
      position, others as they are written. */
  lemma FirstBadRefused(s: string, i: nat)
    requires i < |Split(s)| && MeaningfulBefore(Split(s), i) && !Meaningful(Split(s)[i])
    ensures Parsed(s) == Err(if AllBlank(Split(s)[i]) then EmptyToken(i) else UnknownToken(Trim(Split(s)[i])))
  {
    JoinSplit(s);
    var tokens := ReadAll(Split(s));
    forall j | 0 <= j <= i ensures Good(tokens[j]) <==> Meaningful(Split(s)[j]) {
      GoodMeans(Split(s)[j]);
    }
    BadMeans(Split(s)[i]);
    FirstBadAt(tokens, i);
  }

  /** If all pieces say something, a missing key is noticed before a missing modifier,
      and nothing else is refused. */
  lemma MeaningfulDecides(s: string)
    requires MeaningfulBefore(Split(s), |Split(s)|)
    ensures var parts := Split(s);
      var key := exists i, k :: 0 <= i < |parts| && NamesKey(Word(parts[i]), k);
      var modifier := exists i :: 0 <= i < |parts| && IsModifierWord(Word(parts[i]));
      if !key then Parsed(s) == Err(MissingKey)
      else if !modifier then Parsed(s) == Err(NoModifier)
      else Parsed(s).Ok?
  {
    JoinSplit(s);
    var parts, tokens := Split(s), ReadAll(Split(s));
    AllReadWell(parts);
    LastKeyIsLast(tokens);
    forall j | 0 <= j < |parts| ensures GoodPiece(parts[j], tokens[j]) {
      GoodMeans(parts[j]);
    }
    FirstBadAt(tokens, |tokens|);
    AcceptedIff(s);
    NoModsMeans(tokens);
  }

  ghost predicate GoodPiece(piece: string, t: Token) {
    && Good(t) && (t.Mod? <==> IsModifierWord(Word(piece)))
    && (t.Key? <==> exists k :: NamesKey(Word(piece), k))
  }

  lemma NoModsMeans(tokens: seq<Token>)
    ensures Mods(tokens) == 0 <==> forall i :: 0 <= i < |tokens| ==> !tokens[i].Mod?
  {
    forall m ensures Mods(tokens) & Bit(m) != 0 <==> Names(tokens, m) {
      ModsAreNamed(tokens, m);
    }
    ModsAreNamed(tokens, Alt);
    NoBits(Mods(tokens));
    assert forall i :: 0 <= i < |tokens| && tokens[i].Mod? ==> Names(tokens, tokens[i].modifier);
  }

  // ----- printing ------------------------------------------------------------------------

  function If(present: bool, name: string): seq<string> {
    if present then [name] else []
  }

  /** A hotkey is printed as the names of its bits, in this order, and its key. */
  lemma PrintMeans(h: Hotkey)
    ensures Printed(h) == Join(If(h.mods & 0x2 != 0, "Ctrl") + If(h.mods & 0x1 != 0, "Alt") + If(h.mods & 0x4 != 0, "Shift")
                               + If(h.mods & 0x8 != 0, "Win") + [KeyText(h.key)])
  {
  }

  /** The value of an upper-case hexadecimal numeral. */
  function HexValue(s: string): nat {
    if s == "" then 0
    else
      var c := s[|s| - 1] as int;
      16 * HexValue(s[..|s| - 1]) + (if 48 <= c <= 57 then c - 48 else if 65 <= c <= 70 then c - 55 else 0)
  }

  predicate IsHexNumeral(s: string) {
    s != "" && forall i :: 0 <= i < |s| ==> 48 <= s[i] as int <= 57 || 65 <= s[i] as int <= 70
  }

  /** Hex writes a number in base sixteen, without leading zeros. */
  lemma {:induction false} HexMeans(n: nat)
    ensures IsHexNumeral(Hex(n)) && HexValue(Hex(n)) == n
    ensures Hex(n)[0] == '0' <==> n == 0
  {
    var s := Hex(n);
    if n >= 16 {
      HexMeans(n / 16);
      assert s[..|s| - 1] == Hex(n / 16);
    } else {
      assert s[..0] == "";
    }
  }

  /** A key is printed as its letter, as F1 to F12, or as its code in hexadecimal. */
  lemma KeyTextMeans(key: nat) returns (numeral: string)
    ensures 0x41 <= key <= 0x5A ==> |KeyText(key)| == 1 && KeyText(key)[0] as int == key
    ensures 0x70 <= key <= 0x7B ==> KeyText(key) == "F" + Digits(key - 0x6F)
    ensures !(0x41 <= key <= 0x5A) && !(0x70 <= key <= 0x7B) ==>
      KeyText(key) == "VK_0x" + numeral && IsHexNumeral(numeral) && HexValue(numeral) == key
  {
    numeral := Hex(key);
    HexMeans(key);
    if 0x70 <= key <= 0x7B {
      DigitsDecimal(key - 0x6F);
    }
  }

  /** The default stop hotkey, printed and parsed. */
  lemma DefaultStopHotkey()
    ensures Printed(Hotkey(0x7, 0x53)) == "Ctrl+Alt+Shift+S" && Parsed("Ctrl+Alt+Shift+S") == Ok(Hotkey(0x7, 0x53))
  {
    var h := Hotkey(0x7, 0x53);
    Seven(h);
    StopText(h);
    RoundTripIff(h);
  }

  lemma Seven(h: Hotkey)
    requires h.mods == 0x7 && h.key == 0x53
    ensures h.mods & 0x2 != 0 && h.mods & 0x1 != 0 && h.mods & 0x4 != 0 && h.mods & 0x8 == 0 && Normal(h)
  {
  }

  lemma StopText(h: Hotkey)
    requires h.mods & 0x2 != 0 && h.mods & 0x1 != 0 && h.mods & 0x4 != 0 && h.mods & 0x8 == 0 && h.key == 0x53
    ensures Printed(h) == "Ctrl+Alt+Shift+S"
  {
    PrintMeans(h);
    assert KeyText(0x53) == "S";
    assert ["Ctrl"] + ["Alt"] + ["Shift"] + [] + ["S"] == ["Ctrl"] + ["Alt", "Shift", "S"];
    JoinNext("Shift", ["S"]);
    assert ["Shift"] + ["S"] == ["Shift", "S"];
    JoinNext("Alt", ["Shift", "S"]);
    assert ["Alt"] + ["Shift", "S"] == ["Alt", "Shift", "S"];
    JoinNext("Ctrl", ["Alt", "Shift", "S"]);
  }

  lemma JoinNext(part: string, parts: seq<string>)
    requires parts != []
    ensures Join([part] + parts) == part + "+" + Join(parts)
  {
    assert ([part] + parts)[1..] == parts;
  }
}
