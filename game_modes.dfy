/**
 * Mode decoding of src/game.c: the modifier tests, the base mode and the
 * display name of a mode word.
 *
 * game.h, which defines the masks and base modes, is not part of this
 * model. The masks below are distinct single bits and the base modes are
 * values that share no bit with any mask; they are written as literals in
 * the one function that defines each of them.
 */
module GameModes {
  import opened GameDefs
  import opened Basics

  /** The six independent modifier flags a mode word can carry. */
  datatype Modifier = Versus | Credits | TwentyG | Big | Item | TLS

  /** MODE_VERSUS_MASK, MODE_CREDITS_MASK, MODE_20G_MASK, MODE_BIG_MASK, MODE_ITEM_MASK, MODE_TLS_MASK. */
  function Mask(mod: Modifier): (r: Mode)
    ensures r != 0
  {
    match mod
    case Versus => 0x0008
    case Credits => 0x0010
    case TwentyG => 0x0020
    case Big => 0x0040
    case Item => 0x0200
    case TLS => 0x0400
  }

  /** Each mask is a single bit. */
  lemma MaskIsSingleBit(mod: Modifier)
    ensures Mask(mod) & (Mask(mod) - 1) == 0
  {
  }

  /** Distinct modifiers own distinct bits. */
  lemma MasksDisjoint(a: Modifier, b: Modifier)
    requires a != b
    ensures Mask(a) & Mask(b) == 0
  {
  }

  /** The reference meaning of a modifier: its bit is set in the mode word. */
  predicate HasModifier(m: Mode, mod: Modifier)
  {
    m & Mask(mod) != 0
  }

  // ---- src/game.c:20-43: the single-bit tests ------------------------------

  function IsVersusMode(m: Mode): (r: bool)
    ensures r <==> HasModifier(m, Versus)
  {
    m & Mask(Versus) != 0
  }

  function Is20GMode(m: Mode): (r: bool)
    ensures r <==> HasModifier(m, TwentyG)
  {
    m & Mask(TwentyG) != 0
  }

  function IsBigMode(m: Mode): (r: bool)
    ensures r <==> HasModifier(m, Big)
  {
    m & Mask(Big) != 0
  }

  function IsItemMode(m: Mode): (r: bool)
    ensures r <==> HasModifier(m, Item)
  {
    m & Mask(Item) != 0
  }

  function IsTLSMode(m: Mode): (r: bool)
    ensures r <==> HasModifier(m, TLS)
  {
    m & Mask(TLS) != 0
  }

  /** Setting a modifier's bit makes its test true; clearing it makes it false. */
  lemma ModifierSetClear(m: Mode, a: Modifier)
    ensures HasModifier(m | Mask(a), a)
    ensures !HasModifier(m & !Mask(a), a)
  {
  }

  /** The tests are independent: changing one modifier's bit leaves every other test. */
  lemma ModifiersIndependent(m: Mode, a: Modifier, b: Modifier)
    requires a != b
    ensures HasModifier(m | Mask(a), b) == HasModifier(m, b)
    ensures HasModifier(m & !Mask(a), b) == HasModifier(m, b)
  {
  }

  /** The tests are not mutually exclusive: one word can carry all of them. */
  lemma ModifiersNotExclusive(m: Mode)
    requires m == ModifierMask()
    ensures IsVersusMode(m) && Is20GMode(m) && IsBigMode(m) && IsItemMode(m) && IsTLSMode(m)
    ensures HasModifier(m, Credits)
  {
  }

  // ---- src/game.c:45-56: the base mode ------------------------------------

  /** Every modifier bit, as combined at src/game.c:47-53. */
  function ModifierMask(): (r: Mode)
    ensures r == Mask(Versus) | Mask(Credits) | Mask(TwentyG) | Mask(Big) | Mask(Item) | Mask(TLS)
  {
    0x0678
  }

  lemma ModifierMaskCoversMasks(mod: Modifier)
    ensures Mask(mod) & ModifierMask() == Mask(mod)
  {
  }

  /** The mode word with every modifier bit cleared and every other bit kept. */
  function GetBaseMode(m: Mode): (r: Mode)
    ensures r & ModifierMask() == 0
    ensures r | (m & ModifierMask()) == m
  {
    m & !ModifierMask()
  }

  /** The base mode carries no modifier. */
  lemma BaseModeUnmodified(m: Mode, mod: Modifier)
    ensures !HasModifier(GetBaseMode(m), mod)
  {
    ModifierMaskCoversMasks(mod);
  }

  lemma BaseModeIdempotent(m: Mode)
    ensures GetBaseMode(GetBaseMode(m)) == GetBaseMode(m)
  {
  }

  /**
   * Combining a base mode with any modifier bits and decoding the result
   * gives back the base mode and exactly those modifiers.
   */
  lemma ModeRoundTrip(base: Mode, bits: Mode, mod: Modifier)
    requires base & ModifierMask() == 0 && bits & !ModifierMask() == 0
    ensures GetBaseMode(base | bits) == base
    ensures HasModifier(base | bits, mod) == HasModifier(bits, mod)
  {
    ModifierMaskCoversMasks(mod);
  }

  /** Every mode word is its base mode combined with its modifier bits. */
  lemma ModeDecomposition(m: Mode)
    ensures GetBaseMode(m) | (m & ModifierMask()) == m
    ensures (m & ModifierMask()) & !ModifierMask() == 0
  {
  }

  // ---- src/game.c:58-114: the display name ---------------------------------

  /** The modifiers that can name a mode, highest priority first. */
  const NAME_PRIORITY: seq<Modifier> := [Versus, TwentyG, Big, Item, TLS]

  /** The prefix that one modifier gives a mode name. */
  function PrefixText(mod: Modifier): string
  {
    match mod
    case Versus => "Versus "
    case TwentyG => "20G "
    case Big => "Big "
    case Item => "Item "
    case TLS => "TLS "
    case Credits => ""
  }

  /** Which modifiers a mode word carries, one flag each. */
  datatype ModifierFlags = ModifierFlags(versus: bool, credits: bool, twentyG: bool, big: bool, item: bool, tls: bool)

  function Carries(f: ModifierFlags, mod: Modifier): bool
  {
    match mod
    case Versus => f.versus
    case Credits => f.credits
    case TwentyG => f.twentyG
    case Big => f.big
    case Item => f.item
    case TLS => f.tls
  }

  /** The modifiers `m` carries. */
  function ModifiersOf(m: Mode): (r: ModifierFlags)
    ensures forall mod :: Carries(r, mod) == HasModifier(m, mod)
  {
    ModifierFlags(IsVersusMode(m), HasModifier(m, Credits), Is20GMode(m), IsBigMode(m), IsItemMode(m), IsTLSMode(m))
  }

  /** The first modifier of `order` that is `present`. */
  function FirstModifier(present: ModifierFlags, order: seq<Modifier>): (r: Option<Modifier>)
    ensures r.None? <==> forall i :: 0 <= i < |order| ==> !Carries(present, order[i])
    ensures r.Some? ==> r.value in order && Carries(present, r.value)
    ensures r.Some? ==> exists i | 0 <= i < |order| :: order[i] == r.value && forall j | 0 <= j < i :: !Carries(present, order[j])
  {
    if order == [] then None
    else if Carries(present, order[0]) then Some(order[0])
    else
      var r := FirstModifier(present, order[1..]);
      if r.Some? then FirstInTail(present, order, r.value); r else r
  }

  /** A first present modifier of the tail is the first of the whole order when the head is absent. */
  lemma FirstInTail(present: ModifierFlags, order: seq<Modifier>, v: Modifier)
    requires order != [] && !Carries(present, order[0])
    requires exists i | 0 <= i < |order[1..]| :: order[1..][i] == v && forall j | 0 <= j < i :: !Carries(present, order[1..][j])
    ensures exists i | 0 <= i < |order| :: order[i] == v && forall j | 0 <= j < i :: !Carries(present, order[j])
  {
    var i :| 0 <= i < |order[1..]| && order[1..][i] == v && forall j | 0 <= j < i :: !Carries(present, order[1..][j]);
    assert order[i + 1] == v;
    forall j | 0 <= j < i + 1 ensures !Carries(present, order[j]) {
      if j > 0 {
        assert order[j] == order[1..][j - 1];
      }
    }
  }

  /** The modifier part of the name (src/game.c:62-86). */
  function ModifierPrefix(m: Mode): (r: string)
    ensures r == "" <==> !(IsVersusMode(m) || Is20GMode(m) || IsBigMode(m) || IsItemMode(m) || IsTLSMode(m))
    ensures |r| < 16
  {
    if IsVersusMode(m) then "Versus "
    else if Is20GMode(m) then "20G "
    else if IsBigMode(m) then "Big "
    else if IsItemMode(m) then "Item "
    else if IsTLSMode(m) then "TLS "
    else ""
  }

  /** FirstModifier over NAME_PRIORITY, one test at a time. */
  lemma FirstModifierByPriority(present: ModifierFlags)
    ensures FirstModifier(present, NAME_PRIORITY) ==
            (if Carries(present, Versus) then Some(Versus)
             else if Carries(present, TwentyG) then Some(TwentyG)
             else if Carries(present, Big) then Some(Big)
             else if Carries(present, Item) then Some(Item)
             else if Carries(present, TLS) then Some(TLS)
             else None)
  {
    var p0 := NAME_PRIORITY;
    var p1, p2, p3, p4, p5 := p0[1..], p0[2..], p0[3..], p0[4..], p0[5..];
    assert p1 == [TwentyG, Big, Item, TLS] && p1[1..] == p2;
    assert p2 == [Big, Item, TLS] && p2[1..] == p3;
    assert p3 == [Item, TLS] && p3[1..] == p4;
    assert p4 == [TLS] && p4[1..] == p5 && p5 == [];
    assert FirstModifier(present, p4) == if Carries(present, TLS) then Some(TLS) else None;
    assert FirstModifier(present, p3) == if Carries(present, Item) then Some(Item) else FirstModifier(present, p4);
    assert FirstModifier(present, p2) == if Carries(present, Big) then Some(Big) else FirstModifier(present, p3);
    assert FirstModifier(present, p1) == if Carries(present, TwentyG) then Some(TwentyG) else FirstModifier(present, p2);
  }

  /** The prefix is that of the highest-priority modifier present, if any. */
  lemma ModifierPrefixIsFirst(m: Mode)
    ensures ModifierPrefix(m) == (match FirstModifier(ModifiersOf(m), NAME_PRIORITY)
                                  case None => ""
                                  case Some(mod) => PrefixText(mod))
  {
    FirstModifierByPriority(ModifiersOf(m));
  }

  /** The Credits flag never shows in the name. */
  lemma CreditsNotNamed(m: Mode)
    ensures ModifierPrefix(m | Mask(Credits)) == ModifierPrefix(m)
    ensures GetBaseMode(m | Mask(Credits)) == GetBaseMode(m)
  {
  }

  /** TAP_MODE_NULL, TAP_MODE_NORMAL, TAP_MODE_MASTER, TAP_MODE_DOUBLES, TAP_MODE_TGMPLUS, TAP_MODE_DEATH. */
  const KNOWN_BASE_MODES: set<Mode> := {0x0000, 0x0001, 0x0002, 0x0004, 0x0080, 0x1000}

  /** The base part of the name (src/game.c:88-111). */
  function BaseModeName(b: Mode): (r: string)
    ensures r == "???" <==> b !in KNOWN_BASE_MODES
    ensures 0 < |r| < 16
  {
    if b == 0x0000 then "NULL"
    else if b == 0x0001 then "Normal"
    else if b == 0x0002 then "Master"
    else if b == 0x0004 then "Doubles"
    else if b == 0x0080 then "TGM+"
    else if b == 0x1000 then "Death"
    else "???"
  }

  /** Distinct known base modes get distinct names. */
  lemma BaseModeNamesDistinct(a: Mode, b: Mode)
    requires a in KNOWN_BASE_MODES && b in KNOWN_BASE_MODES && a != b
    ensures BaseModeName(a) != BaseModeName(b)
  {
  }

  /** The known base modes are base modes: none carries a modifier bit. */
  lemma KnownBaseModesUnmodified(b: Mode)
    requires b in KNOWN_BASE_MODES
    ensures GetBaseMode(b) == b
  {
  }

  /** The full name: the modifier prefix followed by the base name. */
  function ModeName(m: Mode): (r: string)
    ensures |r| < 16
    ensures |r| >= |ModifierPrefix(m)| && r[..|ModifierPrefix(m)|] == ModifierPrefix(m)
    ensures r[|ModifierPrefix(m)|..] == BaseModeName(GetBaseMode(m))
  {
    ModifierPrefix(m) + BaseModeName(GetBaseMode(m))
  }

  /**
   * What `snprintf` leaves in a caller's buffer of `bufferLength` chars
   * (src/game.c:113): nothing when the length is 0 (None: the buffer is not
   * written), otherwise the longest prefix of the name that leaves room for
   * the terminating NUL.
   */
  function GetModeName(bufferLength: nat, m: Mode): (r: Option<string>)
    ensures r.Some? <==> bufferLength > 0
    ensures r.Some? ==> |r.value| < bufferLength && r.value <= ModeName(m)
    ensures r.Some? && |r.value| < |ModeName(m)| ==> |r.value| == bufferLength - 1
    ensures bufferLength > |ModeName(m)| ==> r == Some(ModeName(m))
  {
    if bufferLength == 0 then None
    else
      var name := ModeName(m);
      var n := Min(|name|, bufferLength - 1);
      assert n == |name| ==> name[..n] == name;
      Some(name[..n])
  }

  /** A buffer of 16 chars always holds the whole name. */
  lemma ModeNameFits(m: Mode)
    ensures GetModeName(16, m) == Some(ModeName(m))
  {
  }
}
