/** The per-section sanity pass of the linker (`doSanityChecks` in
 *  src/link/section.c): a fixed sequence of checks and normalisations on one
 *  section. A failed check emits a diagnostic and raises the sticky failure
 *  flag; processing always goes on.
 *
 *  The pass is given twice: `DoSanityChecks` is the step-by-step method that
 *  follows the C code, and `Normalized`/`Diagnostics` say in closed form what
 *  it computes, each field and each diagnostic from the section as it was on
 *  entry. The method is proved to agree with them.
 */
module SanityChecks {
  import opened Sections

  /** The mode flags the pass reads: `is32kMode` (set by `-t`), `isWRA0Mode`
   *  (set by `-w`, and by `-d` as well) and `isDmgMode` (set by `-d`). They
   *  are taken as independent inputs.
   */
  datatype ModeFlags = ModeFlags(is32kMode: bool, isWRA0Mode: bool, isDmgMode: bool)

  /** One `fail(...)` of the pass; the message text is not modelled. */
  datatype Diagnostic =
    | RomxNotInBank1        // a fixed ROMX bank other than 1 under `-t`
    | WramxNotInBank1       // a fixed WRAMX bank other than 1 under `-w` or `-d`
    | VramBank1Unavailable  // VRAM bank 1 under `-d`
    | BankOutOfRange        // the bank-range check
    | SectionTooBig         // size above the type's maximum
    | AddressMisaligned     // a fixed address that breaks the fixed alignment
    | AddressOutOfRange     // a fixed address outside the type's window
    | EndPastRegion         // a fixed section running past the window's end

  // ---------------------------------------------------------------------
  // The conditions of the pass, each read off the section as it was on entry
  // ---------------------------------------------------------------------

  /** Under `-t`, a ROMX section fixed in a bank other than 1 is refused. */
  predicate RomxRejected(cfg: ModeFlags, s: Section)
  {
    cfg.is32kMode && s.kind == RomX && s.isBankFixed && s.bank != 1
  }

  /** The type once the mode switches are applied: under `-t` every ROMX
   *  section that is not refused becomes ROM0. The `-w` branch assigns WRAMX
   *  to a WRAMX section, so it changes nothing.
   */
  function ModeKind(cfg: ModeFlags, s: Section): (k: SectionType)
    ensures k == Rom0 <==> s.kind == Rom0 || (cfg.is32kMode && s.kind == RomX && !RomxRejected(cfg, s))
    ensures k != s.kind ==> s.kind == RomX && k == Rom0
    ensures s.kind == WRamX ==> k == WRamX
  {
    if cfg.is32kMode && s.kind == RomX && !RomxRejected(cfg, s) then Rom0 else s.kind
  }

  /** Under `isWRA0Mode`, a WRAMX section fixed in a bank other than 1 is refused. */
  predicate WramxRejected(cfg: ModeFlags, s: Section)
  {
    cfg.isWRA0Mode && ModeKind(cfg, s) == WRamX && s.isBankFixed && s.bank != 1
  }

  /** Under `-d`, a VRAM section with bank 1 is refused (whether or not the
   *  bank is fixed: the C test reads only the bank).
   */
  predicate VramRejected(cfg: ModeFlags, s: Section)
  {
    cfg.isDmgMode && ModeKind(cfg, s) == VRam && s.bank == 1
  }

  /** The range of banks of the section's type after the mode switches. */
  function KindBanks(cfg: ModeFlags, banks: BankTable, s: Section): BankRange
  {
    Banks(banks, ModeKind(cfg, s))
  }

  /** The bank-range check as written: it joins "below the minimum" and
   *  "above the maximum" with `&&`.
   */
  predicate BankRejected(cfg: ModeFlags, banks: BankTable, s: Section)
  {
    s.isBankFixed && s.bank < KindBanks(cfg, banks, s).min && s.bank > KindBanks(cfg, banks, s).max
  }

  /** The section cannot fit in a window of its type. */
  predicate TooBig(cfg: ModeFlags, s: Section)
  {
    s.size > MaxSize(ModeKind(cfg, s))
  }

  /** The alignment left standing once a mask of 1 has been dropped. */
  predicate AlignStands(s: Section)
  {
    s.isAlignFixed && s.alignMask != 1
  }

  /** A fixed address and a standing alignment that disagree. */
  predicate Misaligned(s: Section)
  {
    AlignStands(s) && s.isAddressFixed && BitAnd(s.org, s.alignMask) != 0
  }

  /** A standing alignment without a fixed address that admits exactly one
   *  address in the window, its start, and so becomes a fixed address.
   */
  predicate Promoted(cfg: ModeFlags, s: Section)
  {
    var k := ModeKind(cfg, s);
    AlignStands(s) && !s.isAddressFixed && BitAnd(EndAddr(k), s.alignMask) == StartAddr(k)
  }

  // ---------------------------------------------------------------------
  // What the pass computes
  // ---------------------------------------------------------------------

  /** The section as the pass leaves it. */
  function Normalized(cfg: ModeFlags, banks: BankTable, s: Section): (r: Section)
    // the pass never touches these
    ensures r.name == s.name && r.size == s.size && r.alignMask == s.alignMask
    ensures r.kind == ModeKind(cfg, s)
    // single-bank types end up fixed in their one bank; any other bank is kept
    ensures Banks(banks, r.kind).min == Banks(banks, r.kind).max ==>
              r.isBankFixed && r.bank == Banks(banks, r.kind).min
    ensures Banks(banks, r.kind).min != Banks(banks, r.kind).max ==>
              r.isBankFixed == s.isBankFixed && r.bank == s.bank
    // alignment and a fixed address never both survive
    ensures !(r.isAlignFixed && r.isAddressFixed)
    ensures s.isAlignFixed && s.alignMask == 1 ==> !r.isAlignFixed
    // a fixed address drops the alignment
    ensures s.isAddressFixed ==> r.isAddressFixed && r.org == s.org && !r.isAlignFixed
    // promotion of an alignment to the window's start; otherwise org and
    // isAddressFixed stay as they were
    ensures Promoted(cfg, s) ==> r.org == StartAddr(r.kind) && r.isAddressFixed && !r.isAlignFixed
    ensures !Promoted(cfg, s) ==> r.org == s.org && r.isAddressFixed == s.isAddressFixed
    // an alignment survives exactly when it stands and nothing resolves it
    ensures r.isAlignFixed <==> AlignStands(s) && !s.isAddressFixed && !Promoted(cfg, s)
  {
    var k := ModeKind(cfg, s);
    var range := Banks(banks, k);
    var single := range.min == range.max;
    var promote := Promoted(cfg, s);
    Section(
      name := s.name,
      kind := k,
      size := s.size,
      isAddressFixed := s.isAddressFixed || promote,
      org := if promote then StartAddr(k) else s.org,
      isBankFixed := single || s.isBankFixed,
      bank := if single then range.min else s.bank,
      isAlignFixed := AlignStands(s) && !s.isAddressFixed && !promote,
      alignMask := s.alignMask)
  }

  /** A section, as the pass leaves it, with a fixed address outside its
   *  type's window.
   */
  predicate OutsideWindow(n: Section)
  {
    n.isAddressFixed && (n.org < StartAddr(n.kind) || n.org > EndAddr(n.kind))
  }

  /** A section, as the pass leaves it, with a fixed address that ends past
   *  its type's window. The C addition is done in `int`, so it does not wrap
   *  at 16 bits.
   */
  predicate RunsPastWindow(n: Section)
  {
    n.isAddressFixed && n.org + n.size > EndAddr(n.kind) + 1
  }

  /** Which of the pass's checks fire on one section. */
  datatype Verdicts = Verdicts(
    romxRejected: bool, wramxRejected: bool, vramRejected: bool,
    bankRejected: bool, tooBig: bool, misaligned: bool,
    outsideWindow: bool, runsPastWindow: bool)

  function Judge(cfg: ModeFlags, banks: BankTable, s: Section): Verdicts
  {
    Verdicts(
      RomxRejected(cfg, s), WramxRejected(cfg, s), VramRejected(cfg, s),
      BankRejected(cfg, banks, s), TooBig(cfg, s), Misaligned(s),
      OutsideWindow(Normalized(cfg, banks, s)), RunsPastWindow(Normalized(cfg, banks, s)))
  }

  /** One `fail(...)` that fires when `b`: `d` joins the diagnostics `acc`. */
  function Push(acc: set<Diagnostic>, b: bool, d: Diagnostic): (r: set<Diagnostic>)
  {
    if b then acc + {d} else acc
  }

  /** The diagnostics of the type checks. */
  function TypeReport(v: Verdicts): set<Diagnostic>
  {
    Push(Push(Push({}, v.romxRejected, RomxNotInBank1),
              v.wramxRejected, WramxNotInBank1),
         v.vramRejected, VramBank1Unavailable)
  }

  /** The diagnostics up to the size check. */
  function PlacementReport(v: Verdicts): set<Diagnostic>
  {
    Push(Push(TypeReport(v), v.bankRejected, BankOutOfRange), v.tooBig, SectionTooBig)
  }

  /** The diagnostics of the checks that fire, each added in the order the C
   *  code makes the checks: a diagnostic is emitted exactly when its check
   *  fires, and there is none exactly when no check fires.
   */
  function Report(v: Verdicts): (r: set<Diagnostic>)
    ensures RomxNotInBank1 in r <==> v.romxRejected
    ensures WramxNotInBank1 in r <==> v.wramxRejected
    ensures VramBank1Unavailable in r <==> v.vramRejected
    ensures BankOutOfRange in r <==> v.bankRejected
    ensures SectionTooBig in r <==> v.tooBig
    ensures AddressMisaligned in r <==> v.misaligned
    ensures AddressOutOfRange in r <==> v.outsideWindow
    ensures EndPastRegion in r <==> v.runsPastWindow
    ensures r == {} <==> v == Verdicts(false, false, false, false, false, false, false, false)
  {
    var placed := PlacementReport(v);
    Push(Push(Push(placed, v.misaligned, AddressMisaligned),
              v.outsideWindow, AddressOutOfRange),
         v.runsPastWindow, EndPastRegion)
  }

  /** The diagnostics the pass emits on `s`. */
  function Diagnostics(cfg: ModeFlags, banks: BankTable, s: Section): (r: set<Diagnostic>)
    ensures RomxNotInBank1 in r <==> RomxRejected(cfg, s)
    ensures WramxNotInBank1 in r <==> WramxRejected(cfg, s)
    ensures VramBank1Unavailable in r <==> VramRejected(cfg, s)
    ensures BankOutOfRange in r <==> BankRejected(cfg, banks, s)
    ensures SectionTooBig in r <==> TooBig(cfg, s)
    ensures AddressMisaligned in r <==> Misaligned(s)
    ensures AddressOutOfRange in r <==> OutsideWindow(Normalized(cfg, banks, s))
    ensures EndPastRegion in r <==> RunsPastWindow(Normalized(cfg, banks, s))
    // a section fails exactly when one of the checks fires
    ensures r != {} <==>
              || RomxRejected(cfg, s) || WramxRejected(cfg, s) || VramRejected(cfg, s)
              || BankRejected(cfg, banks, s) || TooBig(cfg, s) || Misaligned(s)
              || OutsideWindow(Normalized(cfg, banks, s)) || RunsPastWindow(Normalized(cfg, banks, s))
  {
    Report(Judge(cfg, banks, s))
  }

  /** The section sets the failure flag. */
  predicate Fails(cfg: ModeFlags, banks: BankTable, s: Section)
  {
    Diagnostics(cfg, banks, s) != {}
  }

  // ---------------------------------------------------------------------
  // Properties of the pass
  // ---------------------------------------------------------------------

  /** The bank-range check can never fire: no bank is both below the minimum
   *  and above the maximum of a non-empty range.
   */
  lemma BankCheckNeverFires(cfg: ModeFlags, banks: BankTable, s: Section)
    requires WellFormed(banks)
    ensures BankOutOfRange !in Diagnostics(cfg, banks, s)
  {
    var k := ModeKind(cfg, s);
    assert Banks(banks, k).min <= Banks(banks, k).max;
  }

  /** A fixed ROMX bank below the range (bank 0) is let through: the section
   *  passes with no diagnostic and its bank as it was.
   */
  lemma BankBelowRangePasses(banks: BankTable)
    requires WellFormed(banks)
    requires 0 < banks.romx.min < banks.romx.max
    ensures var s := Section("code", RomX, 0x100, false, 0, true, 0, false, 0);
            var cfg := ModeFlags(false, false, false);
            s.bank < Banks(banks, s.kind).min
            && Diagnostics(cfg, banks, s) == {}
            && Normalized(cfg, banks, s) == s
  {
    var s := Section("code", RomX, 0x100, false, 0, true, 0, false, 0);
    var cfg := ModeFlags(false, false, false);
    BankCheckNeverFires(cfg, banks, s);
  }

  /** In 32k mode a ROMX section fixed in a bank other than 1 fails and keeps
   *  its type; any other ROMX section becomes ROM0 without a diagnostic from
   *  this step.
   */
  lemma RomxUnder32kMode(cfg: ModeFlags, banks: BankTable, s: Section)
    requires cfg.is32kMode && s.kind == RomX
    ensures s.isBankFixed && s.bank != 1 ==>
              Fails(cfg, banks, s) && Normalized(cfg, banks, s).kind == RomX
    ensures !(s.isBankFixed && s.bank != 1) ==>
              RomxNotInBank1 !in Diagnostics(cfg, banks, s) && Normalized(cfg, banks, s).kind == Rom0
  {
  }

  /** `-w` never changes a section's type, and `-d` refuses VRAM bank 1. */
  lemma WramAndDmgModes(cfg: ModeFlags, banks: BankTable, s: Section)
    ensures s.kind == WRamX ==> Normalized(cfg, banks, s).kind == WRamX
    ensures cfg.isDmgMode && s.kind == VRam && s.bank == 1 ==> Fails(cfg, banks, s)
  {
  }

  /** A fixed address with a standing alignment: the alignment is dropped and
   *  the section fails on this account exactly when the address has one of
   *  the mask's bits set.
   */
  lemma FixedAddressBeatsAlignment(cfg: ModeFlags, banks: BankTable, s: Section)
    requires AlignStands(s) && s.isAddressFixed
    ensures !Normalized(cfg, banks, s).isAlignFixed
    ensures AddressMisaligned in Diagnostics(cfg, banks, s) <==> BitAnd(s.org, s.alignMask) != 0
  {
  }

  /** Every section left with a fixed address must lie in its window and end
   *  inside it; an oversized section fails whether or not it is fixed.
   */
  lemma FixedAddressWindow(cfg: ModeFlags, banks: BankTable, s: Section)
    ensures var n := Normalized(cfg, banks, s);
            n.isAddressFixed && (n.org < StartAddr(n.kind) || n.org > EndAddr(n.kind)) ==> Fails(cfg, banks, s)
    ensures var n := Normalized(cfg, banks, s);
            n.isAddressFixed && n.org + n.size > EndAddr(n.kind) + 1 ==> Fails(cfg, banks, s)
    ensures s.size > MaxSize(Normalized(cfg, banks, s).kind) ==> Fails(cfg, banks, s)
  {
  }

  /** A section that passes and ends with a fixed address lies entirely inside
   *  its type's window.
   */
  lemma PassingFixedSectionFits(cfg: ModeFlags, banks: BankTable, s: Section)
    requires !Fails(cfg, banks, s)
    ensures var n := Normalized(cfg, banks, s);
            n.isAddressFixed ==>
              StartAddr(n.kind) <= n.org <= EndAddr(n.kind)
              && n.org + n.size <= EndAddr(n.kind) + 1
  {
  }

  /** An alignment promoted to a fixed address puts the section at its
   *  window's start: the address check cannot fire on it, and the end check
   *  fires exactly when the section is too big for the window.
   */
  lemma PromotedFitsWindow(cfg: ModeFlags, banks: BankTable, s: Section)
    requires Promoted(cfg, s)
    ensures AddressOutOfRange !in Diagnostics(cfg, banks, s)
    ensures EndPastRegion in Diagnostics(cfg, banks, s) <==> TooBig(cfg, s)
  {
  }

  /** With a mask of the `k` low bits, a fixed address fails the alignment
   *  check exactly when it is not a multiple of `2^k`.
   */
  lemma MisalignedIffNotMultiple(s: Section, k: nat)
    requires s.alignMask == Pow2(k) - 1
    ensures Misaligned(s) <==> AlignStands(s) && s.isAddressFixed && s.org % Pow2(k) != 0
  {
    BitAndLowMask(s.org, k);
  }

  // ---------------------------------------------------------------------
  // The pass, step by step
  // ---------------------------------------------------------------------

  /** The section as it stands before the alignment step: type reinterpreted,
   *  a trivial alignment dropped and the bank tightened.
   */
  ghost function BeforeAlignment(cfg: ModeFlags, banks: BankTable, section: Section): Section
  {
    var n := Normalized(cfg, banks, section);
    section.(kind := n.kind, isAlignFixed := AlignStands(section), bank := n.bank, isBankFixed := n.isBankFixed)
  }

  /** The type checks under the mode switches (`-t`, `-w`, `-d`), the first
   *  step of the pass on `section`; the flag is `failedBefore` on entry.
   */
  method CheckType(cfg: ModeFlags, ghost banks: BankTable, section: Section, failedBefore: bool)
    returns (s: Section, diags: set<Diagnostic>, failed: bool)
    ensures s == section.(kind := ModeKind(cfg, section))
    ensures diags == TypeReport(Judge(cfg, banks, section))
    ensures failed == (failedBefore || diags != {})
  {
    s, diags, failed := section, {}, failedBefore;
    if cfg.is32kMode && s.kind == RomX {
      if s.isBankFixed && s.bank != 1 {
        diags, failed := diags + {RomxNotInBank1}, true;
      } else {
        s := s.(kind := Rom0);
      }
    }
    if cfg.isWRA0Mode && s.kind == WRamX {
      if s.isBankFixed && s.bank != 1 {
        diags, failed := diags + {WramxNotInBank1}, true;
      } else {
        s := s.(kind := WRamX);
      }
    }
    if cfg.isDmgMode && s.kind == VRam && s.bank == 1 {
      diags, failed := diags + {VramBank1Unavailable}, true;
    }
  }

  /** Dropping a trivial alignment, the bank-range and size checks, and
   *  fixing the bank of a single-bank type.
   */
  method CheckBank(cfg: ModeFlags, banks: BankTable, ghost section: Section, ghost failedBefore: bool,
                   s: Section, diags: set<Diagnostic>, failed: bool)
    returns (s': Section, diags': set<Diagnostic>, failed': bool)
    requires s == section.(kind := ModeKind(cfg, section))
    requires diags == TypeReport(Judge(cfg, banks, section))
    requires failed == (failedBefore || diags != {})
    ensures s' == BeforeAlignment(cfg, banks, section)
    ensures diags' == PlacementReport(Judge(cfg, banks, section))
    ensures failed' == (failedBefore || diags' != {})
  {
    s', diags', failed' := s, diags, failed;
    if s'.isAlignFixed && s'.alignMask == 1 {
      s' := s'.(isAlignFixed := false);
    }

    var minBank, maxBank := Banks(banks, s'.kind).min, Banks(banks, s'.kind).max;

    if s'.isBankFixed && s'.bank < minBank && s'.bank > maxBank {
      diags', failed' := diags' + {BankOutOfRange}, true;
    }
    if s'.size > MaxSize(s'.kind) {
      diags', failed' := diags' + {SectionTooBig}, true;
    }

    if minBank == maxBank {
      s' := s'.(bank := minBank, isBankFixed := true);
    }
  }

  /** An alignment next to a fixed address is dropped (after checking that
   *  they agree); an alignment that admits only the window's start becomes
   *  a fixed address.
   */
  method ResolveAlignment(ghost cfg: ModeFlags, ghost banks: BankTable, ghost section: Section, ghost failedBefore: bool,
                          s: Section, diags: set<Diagnostic>, failed: bool)
    returns (s': Section, diags': set<Diagnostic>, failed': bool)
    requires s == BeforeAlignment(cfg, banks, section)
    requires diags == PlacementReport(Judge(cfg, banks, section))
    requires failed == (failedBefore || diags != {})
    ensures s' == Normalized(cfg, banks, section)
    ensures diags' == Push(PlacementReport(Judge(cfg, banks, section)), Misaligned(section), AddressMisaligned)
    ensures failed' == (failedBefore || diags' != {})
  {
    s', diags', failed' := s, diags, failed;
    if s'.isAlignFixed {
      var t := s'.kind;
      if s'.isAddressFixed {
        if BitAnd(s'.org, s'.alignMask) != 0 {
          diags', failed' := diags' + {AddressMisaligned}, true;
        }
        s' := s'.(isAlignFixed := false);
      } else if BitAnd(EndAddr(t), s'.alignMask) == StartAddr(t) {
        s' := s'.(org := StartAddr(t), isAlignFixed := false, isAddressFixed := true);
      }
    }
  }

  /** The window checks on a fixed address, the last step of the pass. */
  method CheckAddress(ghost cfg: ModeFlags, ghost banks: BankTable, ghost section: Section, ghost failedBefore: bool,
                      s: Section, diags: set<Diagnostic>, failed: bool)
    returns (diags': set<Diagnostic>, failed': bool)
    requires s == Normalized(cfg, banks, section)
    requires diags == Push(PlacementReport(Judge(cfg, banks, section)), Misaligned(section), AddressMisaligned)
    requires failed == (failedBefore || diags != {})
    ensures diags' == Diagnostics(cfg, banks, section)
    ensures failed' == (failedBefore || diags' != {})
  {
    diags', failed' := diags, failed;
    if s.isAddressFixed {
      if s.org < StartAddr(s.kind) || s.org > EndAddr(s.kind) {
        diags', failed' := diags' + {AddressOutOfRange}, true;
      }
      if s.org + s.size > EndAddr(s.kind) + 1 {
        diags', failed' := diags' + {EndPastRegion}, true;
      }
    }
  }

  /** `doSanityChecks` on one section: `failedBefore` is the sticky flag on
   *  entry; the result is the updated section, the diagnostics emitted and
   *  the flag on exit.
   */
  method DoSanityChecks(cfg: ModeFlags, banks: BankTable, section: Section, failedBefore: bool)
    returns (s: Section, diags: set<Diagnostic>, sanityChecksFailed: bool)
    ensures s == Normalized(cfg, banks, section)
    ensures diags == Diagnostics(cfg, banks, section)
    ensures sanityChecksFailed == (failedBefore || Fails(cfg, banks, section))
  {
    s, diags, sanityChecksFailed := CheckType(cfg, banks, section, failedBefore);
    s, diags, sanityChecksFailed := CheckBank(cfg, banks, section, failedBefore, s, diags, sanityChecksFailed);
    s, diags, sanityChecksFailed := ResolveAlignment(cfg, banks, section, failedBefore, s, diags, sanityChecksFailed);
    diags, sanityChecksFailed := CheckAddress(cfg, banks, section, failedBefore, s, diags, sanityChecksFailed);
  }
}
