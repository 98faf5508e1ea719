/** Hotkeys: parsing and printing (hotkey.go), for ASCII text. */
module Hotkeys {
  import opened Jobs

  datatype Modifier = Alt | Ctrl | Shift | Win

  /** The modifier's bit, the one that RegisterHotKey knows. */
  function Bit(m: Modifier): bv32 {
    match m
    case Alt => 1
    case Ctrl => 2
    case Shift => 4
    case Win => 8
  }

  const ALL_BITS: bv32 := 15

  const KEY_A := 0x41
  const KEY_Z := 0x5A
  const KEY_F1 := 0x70
  const KEY_F12 := 0x7B

  datatype Hotkey = Hotkey(mods: bv32, key: nat)

  datatype Error = EmptyToken(position: nat) | UnknownToken(text: string) | MissingKey | NoModifier

  datatype Result = Ok(value: Hotkey) | Err(error: Error)

  // ----- text ------------------------------------------------------------------------

  /** strings.Split(s, "+"). */
  function Split(s: string): (parts: seq<string>)
    ensures parts != []
  {
    if s == [] then [""]
    else
      var rest := Split(s[1..]);
      if s[0] == '+' then [""] + rest else [[s[0]] + rest[0]] + rest[1..]
  }

  /** strings.Join(parts, "+"). */
  function Join(parts: seq<string>): string {
    if parts == [] then ""
    else if |parts| == 1 then parts[0]
    else parts[0] + "+" + Join(parts[1..])
  }

  predicate IsSpace(c: char) {
    c == ' ' || '\t' <= c <= '\r'
  }

  function TrimLeft(s: string): string {
    if s != [] && IsSpace(s[0]) then TrimLeft(s[1..]) else s
  }

  function TrimRight(s: string): string {
    if s != [] && IsSpace(s[|s| - 1]) then TrimRight(s[..|s| - 1]) else s
  }

  /** strings.TrimSpace. */
  function Trim(s: string): string {
    TrimRight(TrimLeft(s))
  }

  function LowerChar(c: char): char {
    if 'A' <= c <= 'Z' then (c as int + 32) as char else c
  }

  function UpperChar(c: char): char {
    if 'a' <= c <= 'z' then (c as int - 32) as char else c
  }

  /** strings.ToLower. */
  function Lower(s: string): (r: string)
    ensures |r| == |s|
  {
    seq(|s|, i requires 0 <= i < |s| => LowerChar(s[i]))
  }

  function Decimal(n: nat): string {
    if n < 10 then [Digit(n)] else Decimal(n / 10) + [Digit(n % 10)]
  }

  function Digit(n: nat): char
    requires n < 10
  {
    ('0' as int + n) as char
  }

  function Hex(n: nat): string {
    if n < 16 then [HexDigit(n)] else Hex(n / 16) + [HexDigit(n % 16)]
  }

  function HexDigit(n: nat): char
    requires n < 16
  {
    if n < 10 then Digit(n) else ('A' as int + n - 10) as char
  }

  predicate IsNumber(s: string) {
    s != [] && forall i :: 0 <= i < |s| ==> '0' <= s[i] <= '9'
  }

  function Value(s: string): nat
    requires forall i :: 0 <= i < |s| ==> '0' <= s[i] <= '9'
  {
    if s == [] then 0 else 10 * Value(s[..|s| - 1]) + (s[|s| - 1] as int - '0' as int)
  }

  /** strconv.Atoi followed by the range check: the number, or 0 when it is not one
      of 1 to 12. A sign is read, but leaves no number in range. */
  function FunctionNumber(s: string): nat {
    var digits := if s != [] && (s[0] == '-' || s[0] == '+') then s[1..] else s;
    if !IsNumber(digits) then 0
    else
      var n: int := if s[0] == '-' then -(Value(digits) as int) else Value(digits) as int;
      if 1 <= n <= 12 then n else 0
  }

  // ----- what a text means -------------------------------------------------------------

  datatype Token = Empty | Unknown(text: string) | Mod(modifier: Modifier) | Key(key: nat)

  /** What one token says, whatever its case and the blanks around it. */
  function Read(raw: string): Token {
    var tok := Trim(raw);
    if tok == "" then Empty
    else if ModifierOf(Lower(tok)).Some? then Mod(ModifierOf(Lower(tok)).value)
    else if KeyOf(tok) > 0 then Key(KeyOf(tok)) else Unknown(tok)
  }

  /** The modifier of that name. */
  function ModifierOf(low: string): Option<Modifier> {
    match low
    case "ctrl" | "control" => Some(Ctrl)
    case "alt" => Some(Alt)
    case "shift" => Some(Shift)
    case "win" | "super" | "meta" => Some(Win)
    case _ => None
  }

  /** The key of a letter or of a function key's name; 0 if it is neither. */
  function KeyOf(tok: string): nat {
    var low := Lower(tok);
    if |low| == 1 && 'a' <= low[0] <= 'z' then low[0] as int - 32
    else if |low| >= 2 && low[0] == 'f' && FunctionNumber(low[1..]) > 0 then KEY_F1 - 1 + FunctionNumber(low[1..])
    else 0
  }

  function ReadAll(parts: seq<string>): (tokens: seq<Token>)
    ensures |tokens| == |parts|
  {
    seq(|parts|, i requires 0 <= i < |parts| => Read(parts[i]))
  }

  predicate Good(t: Token) {
    t.Mod? || t.Key?
  }

  predicate AllGood(tokens: seq<Token>) {
    forall i :: 0 <= i < |tokens| ==> Good(tokens[i])
  }

  /** All the modifiers that are named. */
  function Mods(tokens: seq<Token>): bv32 {
    if tokens == [] then 0
    else
      var last := tokens[|tokens| - 1];
      if last.Mod? then Mods(tokens[..|tokens| - 1]) | Bit(last.modifier) else Mods(tokens[..|tokens| - 1])
  }

  /** The key that is named last; 0 if there is none. */
  function LastKey(tokens: seq<Token>): nat {
    if tokens == [] then 0
    else
      var last := tokens[|tokens| - 1];
      if last.Key? then last.key else LastKey(tokens[..|tokens| - 1])
  }

  /** The position of the first token that means nothing; their number if all do. */
  function FirstBad(tokens: seq<Token>): nat {
    if tokens == [] then 0 else if !Good(tokens[0]) then 0 else 1 + FirstBad(tokens[1..])
  }

  /** What a line of tokens means. */
  function Meaning(tokens: seq<Token>): Result {
    var bad := FirstBad(tokens);
    if bad < |tokens| then
      Err(if tokens[bad].Unknown? then UnknownToken(tokens[bad].text) else EmptyToken(bad))
    else if LastKey(tokens) == 0 then Err(MissingKey)
    else if Mods(tokens) == 0 then Err(NoModifier)
    else Ok(Hotkey(Mods(tokens), LastKey(tokens)))
  }

  function Parsed(s: string): Result {
    Meaning(ReadAll(Split(s)))
  }

  // ----- what a hotkey is called ---------------------------------------------------------

  predicate IsLetterKey(key: nat) {
    KEY_A <= key <= KEY_Z
  }

  predicate IsFunctionKey(key: nat) {
    KEY_F1 <= key <= KEY_F12
  }

  function KeyText(key: nat): string {
    if IsLetterKey(key) then [('A' as int + key - KEY_A) as char]
    else if IsFunctionKey(key) then "F" + Decimal(key - KEY_F1 + 1)
    else "VK_0x" + Hex(key)
  }

  function ModText(mods: bv32, m: Modifier, name: string): seq<string> {
    if mods & Bit(m) != 0 then [name] else []
  }

  function ModTexts(mods: bv32): seq<string> {
    ModText(mods, Ctrl, "Ctrl") + ModText(mods, Alt, "Alt")
    + ModText(mods, Shift, "Shift") + ModText(mods, Win, "Win")
  }

  function Printed(h: Hotkey): string {
    Join(ModTexts(h.mods) + [KeyText(h.key)])
  }

  // ----- the code ------------------------------------------------------------------------

  /** ParseHotkey. */
  method ParseHotkey(s: string) returns (r: Result)
    ensures r == Parsed(s)
  {
    var mods: bv32, key: nat := 0, 0;
    var parts := Split(s);
    ghost var tokens := ReadAll(parts);
    for i := 0 to |parts|
      invariant AllGood(tokens[..i])
      invariant mods == Mods(tokens[..i]) && key == LastKey(tokens[..i])
    {
      var token := ParseToken(parts[i]);
      ReadNext(tokens, i);
      match token
      case Empty => return Err(EmptyToken(i));
      case Unknown(text) => return Err(UnknownToken(text));
      case Mod(m) => mods := mods | Bit(m);
      case Key(k) => key := k;
    }
    assert tokens[..|parts|] == tokens;
    NoneBad(tokens);
    if key == 0 {
      return Err(MissingKey);
    }
    if mods == 0 {
      return Err(NoModifier);
    }
    return Ok(Hotkey(mods, key));
  }

  /** What the body of ParseHotkey's loop makes of one token. */
  method ParseToken(raw: string) returns (t: Token)
    ensures t == Read(raw)
  {
    var tok := Trim(raw);
    if tok == "" {
      return Empty;
    }
    var modifier := ModifierOf(Lower(tok));
    if modifier.Some? {
      return Mod(modifier.value);
    }
    var key := ParseKey(tok);
    return if key == 0 then Unknown(tok) else Key(key);
  }

  /** The branch for keys. */
  method ParseKey(tok: string) returns (key: nat)
    ensures key == KeyOf(tok)
  {
    var low := Lower(tok);
    if |tok| == 1 {
      var ch := UpperChar(tok[0]);
      if 'A' <= ch <= 'Z' {
        return ch as int;
      }
    }
    if |low| >= 2 && low[0] == 'f' {
      var n := FunctionNumber(low[1..]);
      if n >= 1 {
        return KEY_F1 + (n - 1);
      }
    }
    return 0;
  }

  /** One more token: it is added to what was read, or it decides the outcome. */
  lemma ReadNext(tokens: seq<Token>, i: nat)
    requires i < |tokens| && AllGood(tokens[..i])
    ensures AllGood(tokens[..i + 1]) <==> Good(tokens[i])
    ensures Mods(tokens[..i + 1]) == if tokens[i].Mod? then Mods(tokens[..i]) | Bit(tokens[i].modifier) else Mods(tokens[..i])
    ensures LastKey(tokens[..i + 1]) == if tokens[i].Key? then tokens[i].key else LastKey(tokens[..i])
    ensures tokens[i].Empty? ==> Meaning(tokens) == Err(EmptyToken(i))
    ensures tokens[i].Unknown? ==> Meaning(tokens) == Err(UnknownToken(tokens[i].text))
  {
    assert tokens[..i + 1] == tokens[..i] + [tokens[i]] && tokens[..i + 1][..i] == tokens[..i];
    if !Good(tokens[i]) {
      FirstBadAt(tokens, i);
    }
  }

  lemma NoneBad(tokens: seq<Token>)
    requires AllGood(tokens)
    ensures Meaning(tokens) == if LastKey(tokens) == 0 then Err(MissingKey)
                               else if Mods(tokens) == 0 then Err(NoModifier) else Ok(Hotkey(Mods(tokens), LastKey(tokens)))
  {
    FirstBadAt(tokens, |tokens|);
  }

  /** Hotkey.String. */
  method Print(h: Hotkey) returns (s: string)
    ensures s == Printed(h)
  {
    var parts := [];
    if h.mods & Bit(Ctrl) != 0 {
      parts := parts + ["Ctrl"];
    }
    if h.mods & Bit(Alt) != 0 {
      parts := parts + ["Alt"];
    }
    if h.mods & Bit(Shift) != 0 {
      parts := parts + ["Shift"];
    }
    if h.mods & Bit(Win) != 0 {
      parts := parts + ["Win"];
    }
    assert parts == ModTexts(h.mods);
    if KEY_A <= h.key <= KEY_Z {
      parts := parts + [[('A' as int + (h.key - KEY_A)) as char]];
    } else if KEY_F1 <= h.key <= KEY_F12 {
      parts := parts + ["F" + Decimal(h.key - KEY_F1 + 1)];
    } else {
      parts := parts + ["VK_0x" + Hex(h.key)];
    }
    s := Join(parts);
  }

  lemma {:induction false} FirstBadAt(tokens: seq<Token>, i: nat)
    requires i <= |tokens| && AllGood(tokens[..i])
    requires i < |tokens| ==> !Good(tokens[i])
    ensures FirstBad(tokens) == i
  {
    if i > 0 {
      assert tokens[0] == tokens[..i][0] && tokens[1..][..i - 1] == tokens[..i][1..];
      FirstBadAt(tokens[1..], i - 1);
    } else {
      assert tokens != [] ==> FirstBad(tokens) == 0;
    }
  }
}
