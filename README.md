# RGBDS linker sections: sanity checks and the section registry

This project models the section handling of the RGBDS linker (`rgblink`),
`src/link/section.c`, in Dafny.

The model has three layers:

- **Layout tables.** For each of the eight section types (ROM0, ROMX, VRAM,
  SRAM, WRAM0, WRAMX, OAM, HRAM) there is a start address, a maximum size
  and a bank range.
- **Per-section sanity pass.** `doSanityChecks` checks one section and
  normalises it in place. It reads three mode flags set by the
  command-line switches `-t`, `-w` and `-d`. Each failed check prints a diagnostic and sets a sticky
  failure flag; the pass always carries on.
- **Registry.** A name-keyed map of sections with these operations:
  - add a section, aborting if the name is a duplicate;
  - look up, iterate over and empty the map;
  - the whole-program pass, which runs the per-section pass over every
    section and aborts if the flag is set.

Files:

- `sections.dfy` (module `Sections`): 16- and 32-bit values, `&` on
  integers, section types, the tables and the section record.
- `sanity.dfy` (module `SanityChecks`):
  - the per-section pass in closed form: `Normalized`, the section the pass
    leaves behind, and `Diagnostics`, the set of checks that fire, both read
    off the section as it was on entry;
  - the properties of the pass, as lemmas;
  - the pass as the C code performs it, as the method `DoSanityChecks` and
    its four steps. Each step is proved to produce the closed-form state.
- `registry.dfy` (module `Registry`):
  - the class `SectionRegistry`, with the map and the sticky flag as fields;
  - `ForEach`, which visits the sections in an unspecified order and is
    proved equal to a fold over that order;
  - the registry-wide sanity pass. It is proved not to depend on the visit
    order: every section is normalised, the flag is the old flag or "some
    section fails", and the warnings are every section's diagnostics.

Modelling choices:

- **The bank table is a parameter.** The `BANK_MIN_*`/`BANK_MAX_*` constants
  are defined in a header that is not part of this model. `WellFormed` says
  every range is non-empty.
- **`endaddr(t)` is taken to be `startaddr(t) + maxsize(t) - 1`.** Its
  definition is in the same missing header.
- **Mode switches are a parameter.** The three flags `is32kMode`,
  `isWRA0Mode` and `isDmgMode` form a `ModeFlags` value and are treated as
  independent inputs. `is32kMode` is set by `-t`. `isWRA0Mode` is set by `-w`
  and, as the message at line 130 shows, also by `-d`. `isDmgMode` is set by
  `-d`.
- **Diagnostics are tags.** Each `fail(...)` becomes one `Diagnostic` tag in
  a set, rather than a printed message.
- **Some checks are modelled as written:**
  - the bank-range check `bank < minbank && bank > maxbank` can never hold
    for a non-empty range. `BankCheckNeverFires` proves this, and
    `BankBelowRangePasses` shows a bank-0 ROMX section passing;
  - `-w` assigns WRAMX to a section that is already WRAMX, so it changes
    nothing;
  - the `-d` VRAM test reads the bank whether or not the bank is fixed.

## Model

| member | source | states |
|---|---|---|
| Sections.StartAddr | src/link/section.c:19-28 | the `startaddr` entries as written; every window starting there fits below the top of the 16-bit address space |
| Sections.MaxSize | src/link/section.c:30-39 | the `maxsize` entries as written; every window is non-empty and at most one 16 KiB ROM bank |
| Sections.Banks | src/link/section.c:41-50 | the `bankranges` row of each type; in a well-formed table (`WellFormed`: every range non-empty) that row has min ≤ max |
| Sections.BitAnd | src/link/section.c:173 | `a & b` is no larger than either operand |
| Sections.BitAndLowMask | src/link/section.c:173 | `a & (2^k − 1)` is `a mod 2^k`: a mask of the low bits keeps exactly the remainder |
| Sections.WindowsDisjoint | src/link/section.c:19-39 | the address windows of two different section types do not overlap |
| SanityChecks.ModeKind | src/link/section.c:121-134 | the type is ROM0 after the mode checks iff it was ROM0, or it was ROMX under `-t` and was not refused; the only type change is ROMX→ROM0; WRAMX never changes |
| SanityChecks.Normalized | src/link/section.c:121-183 | the section after the pass keeps its name, size and mask. A single-bank type ends fixed in that bank; otherwise the bank is kept. Alignment and a fixed address never both survive. A mask of 1 drops the alignment. A fixed address keeps its org and drops the alignment. An alignment that admits only the window start becomes that fixed address; otherwise org and the address flag are untouched |
| SanityChecks.Report | src/link/section.c:112-115 | each diagnostic is present iff its check fired, and the set is empty iff no check fired |
| SanityChecks.Diagnostics | src/link/section.c:109-200 | each of the eight diagnostics is emitted iff its condition holds on the entry section (type checks, bank, size, alignment) or on the normalised section (window checks); the set is non-empty iff some condition holds |
| SanityChecks.BankCheckNeverFires | src/link/section.c:146-154 | with non-empty bank ranges the bank-range diagnostic is never emitted |
| SanityChecks.BankBelowRangePasses | src/link/section.c:149-154 | a ROMX section fixed in bank 0, below the ROMX range, passes with no diagnostic and comes out unchanged |
| SanityChecks.RomxUnder32kMode | src/link/section.c:121-127 | under `-t` a ROMX section fixed in a bank other than 1 fails and stays ROMX; any other ROMX section becomes ROM0 without that diagnostic |
| SanityChecks.WramAndDmgModes | src/link/section.c:128-137 | WRAMX sections keep their type; under `-d` a VRAM section with bank 1 fails |
| SanityChecks.FixedAddressBeatsAlignment | src/link/section.c:172-176 | with a fixed address and a standing alignment, the alignment is dropped and the misalignment diagnostic is emitted iff `org & alignMask != 0` |
| SanityChecks.FixedAddressWindow | src/link/section.c:157-196 | a normalised fixed address before the window start, past its end, or running past its end fails the section, and so does a size above the type's maximum |
| SanityChecks.PromotedFitsWindow | src/link/section.c:177-196 | a section whose alignment is promoted to a fixed address never fails the address-range check, and fails the end check exactly when it is too big for its type |
| SanityChecks.MisalignedIffNotMultiple | src/link/section.c:172-175 | with a mask of the `k` low bits, a fixed address is reported misaligned exactly when it is not a multiple of `2^k` |
| SanityChecks.PassingFixedSectionFits | src/link/section.c:185-197 | a section that passes and ends with a fixed address lies wholly inside its type's window |
| SanityChecks.CheckType | src/link/section.c:117-137 | the type checks give the section with its mode-adjusted type and the type diagnostics; the flag is the old flag or "some diagnostic" |
| SanityChecks.CheckBank | src/link/section.c:143-166 | the trivial-alignment drop, bank and size checks and bank tightening reach the closed-form state before the alignment step, with the diagnostics up to the size check |
| SanityChecks.ResolveAlignment | src/link/section.c:168-183 | the alignment step leaves exactly the normalised section and adds the misalignment diagnostic iff the entry section was misaligned |
| SanityChecks.CheckAddress | src/link/section.c:185-197 | the window checks complete the diagnostics of the pass |
| SanityChecks.DoSanityChecks | src/link/section.c:109-200 | the pass on one section yields the normalised section and the diagnostics of the closed form; the sticky flag becomes the old flag or "the section fails" |
| Registry.Visit | src/link/section.c:77-82 | visiting sections in a given order keeps the set of names |
| Registry.VisitKeepsNamed | src/link/section.c:77-82 | a visitor that keeps names leaves every section filed under its own name |
| Registry.PassVisitSections | src/link/section.c:77-82 | visiting rewrites exactly the visited sections, each into its checked form, and leaves the others as they were |
| Registry.PassVisitAll | src/link/section.c:202-204 | a visit over every name, each once, checks every section |
| Registry.PassVisitFlag | src/link/section.c:107 | after the visit the flag is set iff it was set before or some visited section fails, so it is never cleared |
| Registry.PassVisitWarnings | src/link/section.c:112-115 | the diagnostics gathered are the earlier ones plus every visited section's, under its name |
| Registry.SectionRegistry.constructor | src/link/section.c:63 | the registry starts empty with the flag clear |
| Registry.SectionRegistry.GetSection | src/link/section.c:97-100 | a section is returned iff one is filed under that name, and it is that section and bears that name |
| Registry.SectionRegistry.AddSection | src/link/section.c:84-95 | a name already in use aborts and leaves the map unchanged. Otherwise the map gains exactly that name→section binding and `GetSection` returns the new section |
| Registry.SectionRegistry.CleanupSections | src/link/section.c:102-105 | the map becomes empty and the flag is untouched |
| Registry.SectionRegistry.ForEach | src/link/section.c:77-82 | every section is visited exactly once, in some order. The resulting map and accumulator equal the fold over that order. Sections stay filed under their names |
| Registry.SectionRegistry.CheckAll | src/link/section.c:202-204 | every section is replaced by its checked form. The flag becomes the old flag or "some section fails". The warnings are exactly the diagnostics of every section |
| Registry.SectionRegistry.DoSanityChecks | src/link/section.c:202-207 | every section ends normalised, and the flag is the old flag or "some section fails". The program aborts iff the flag is set. The warnings are exactly each section's diagnostics, under its name |

## Left out

- Sections.EndAddr: `endaddr` is defined in a header that is not part of this model. It is taken to be `startaddr + maxsize - 1`.
- Sections.BankTable: the `BANK_MIN_*`/`BANK_MAX_*` constants live in a header that is not part of this model, so the table is a parameter.
- Sections.BitAnd: 16-bit values are bounded integers, and `&` is defined bit by bit on them rather than as a machine operation. It is not proved equal to `&` on `bv16`. What is proved is its bound and its meaning on masks of low bits (`BitAndLowMask`), which is the form of `alignMask` the alignment checks read.
- The invalid-type check (`type < 0 || type >= SECTTYPE_INVALID`): `SectionType` has exactly the eight valid types, so an out-of-range type cannot be represented.
- `typeNames`: the table only supplies message text and is not modelled.
- Message text, including the format arguments of `fail(...)` and `errx(...)`: diagnostics are tags.
- SanityChecks.Diagnostics: the checks of one section are a set, so the order in which that section's warnings are printed is not modelled. The order of the checks is kept in the step methods.
- `beVerbose` and the hash-collision warning of `sect_AddSection`: a diagnostic about the hash map's internals that does not affect its contents.
- The hash map itself (`hash_GetElement`, `hash_AddElement`, `hash_ForEach`, `hash_EmptyMap`): it is modelled as a Dafny `map`, so collisions and bucket order are not modelled.
- Registry.SectionRegistry.ForEach: the visit order is left unspecified, as the hash map's order is. The `ForEachArg` trampoline that forwards the callback is not modelled separately.
- Registry.SectionRegistry: sections are held by value. A visitor returns the updated section instead of writing through a pointer, so aliasing between sections is not modelled.
- Registry.SectionRegistry.CleanupSections: releasing the map's storage is not modelled.
- `errx(1, ...)` and `warnx(...)`: process exit and printing are modelled as the `Abort` status and the returned diagnostics.
