# ACPI state machines, ledgers and allocators

A Dafny model of the hardest logic of the Linux ACPI subsystem (`drivers/acpi`)
with proofs of what that logic is for: who keeps a shared power resource on,
which mapping an unmap call releases, what a completed embedded controller
exchange looks like, and so on.

Firmware, ports, interrupts and allocators are an arbitrary environment.  For
power management a `Firmware` value fixes the outcome of every control method
evaluation by its position in a log, so a statement for all `Firmware` values
covers every pattern of failures, including failures inside rollbacks.  A
failing `_ON` or `_OFF` leaves the hardware as it was.

A run of the power ledger is a sequence of whole calls.  The source locks one
resource at a time (`drivers/acpi/power.c:303, 350`), so the calls of different
devices can also mix resource by resource; `PowerInterleave.dfy` proves the
ledger over those interleavings.  In the other modules each section the source
runs under a lock is one step.

| file | what it holds |
|---|---|
| `PowerResources.dfy` | reference counts, the two list sweeps and their rollbacks |
| `ResourceList.dfy` | the ordered resource lists and the order of evaluations |
| `DevicePower.dfy` | D-state transitions, wakeup, inference and the steps of `device_pm.c` as functions |
| `PowerLedger.dfy` | the ledger over all runs: safety, no glitch, exact conservation |
| `PowerResume.dfy` | resume and inference against the ledger |
| `PowerGround.dfy` | the devices for which the ledger is safe, were `acpi_power_transition` called at any time |
| `PowerShelter.dfy` | devices that the refusals of `device_pm.c` keep safe |
| `PowerCalls.dfy` | runs of the calls drivers make: which break the ledger, and which devices are safe |
| `PowerInterleave.dfy` | transitions of several devices interleaved resource by resource |
| `PowerSteady.dfy` | no glitches over whole runs |
| `PowerSteps.dfy` | what single steps promise beyond the ledger: outcomes, power before methods, the wakeup bracket |
| `PowerOutcomes.dfy` | changes of state by their outcomes: refusals, arrival, D3cold through D3hot |
| `PowerReadings.dfy` | reading, initialising and following a state by their outcomes |
| `PowerWakeup.dfy` | enabling and disabling wakeup by their outcomes, and nesting |
| `PowerManager.dfy` | the same operations in place, each equal to its function |
| `MappingCache.dfy`, `MappingPages.dfy`, `Ioremaps.dfy` | the mapping list as functions and its ledger, its pages, and in place |
| `NvsMemory.dfy`, `NvsOutcomes.dfy`, `NvsDriver.dfy` | NVS chunks, save, restore and free, what each leaves behind, and in place |
| `EcTransaction.dfy`, `EcProgress.dfy`, `EcDriver.dfy` | one embedded controller transaction under any interleaving, its handshake and progress, and its loops |
| `EcQuery.dfy` | the pending-query protocol |
| `Coordination.dfy` | coordination domains of T-states and P-states |
| `PackageExtraction.dfy`, `PackageWriter.dfy` | the package layout and its decoding, and the two passes over a buffer |
| `OscNegotiation.dfy` | the `_OSC` loop |
| `C3Arbitration.dfy` | the bus master arbitration bracket around C3 |
| `DutyCycle.dfy` | the duty cycle register |
| `IrqBalance.dfy` | the greedy choice of interrupts for PCI links |
| `PerformanceStates.dfy` | squeezing unusable states out of the performance table |
| `Wrappers.dfy` | shared types |

## The main results

- **Power ledger.** The slack of a resource is its count less one for a wakeup
  mark and less its occurrences in the lists of all current D-states.  No run
  ever shrinks a slack, whatever fails (`RunLaw`); hence no resource that some
  device needs is ever off (`NeverOffWhileInUse`), and while a device stays in
  its state, no step of any other device turns one of its resources off even
  for a moment (`RunSteady`).  With reliable firmware a
  step leaves every slack alone exactly when it accounts for what it takes and
  leaves (`StepExact`), and a device powered down gives back exactly its list.
- **The ledger is not safe for every set of devices.** Reading the state of a
  device found in D0 records D0 for a parent of unknown state without taking
  the parent's resources (`drivers/acpi/device_pm.c:123-125`).
  If `acpi_power_transition` may be called at any time, the exact condition is
  that no parent that can be promoted this way needs resources in D0
  (`SafeExactlyWhenGrounded`, and `ColdSafeExactlyWhenGrounded` for runs from a
  cold start).  The driver calls it only behind the checks of
  `drivers/acpi/device_pm.c:178-183`, which refuse a child of an unknown parent,
  so for the calls drivers make less is needed: it is enough that the parent
  needs one resource, which the child needs too and nobody outside the family
  does (`Sheltered` in full; `ShelteredIsSafe`, for every platform and failure).  Where each
  device has at most one resource, in D0 only, and families have two
  generations, that is exact (`SafeForCallsExactlyWhenSheltered`).  Whatever the
  platform, the calls break the ledger from a cold start when a root parent has
  a child without resources of its own (`LoneChildBreaks`), a resource its
  child lacks (`MissingBreaks`), or when a device outside the family can power
  all the child needs (`OutsiderBreaks`).
- **Interleaved transitions.** Over every interleaving of single counter
  updates, with failures and rollbacks anywhere, each resource stays counted for
  its wakeup mark, the devices at rest and all that unfinished transitions are
  entitled to (`InterleaveLaw`).  Hence what a device needs, at rest or in
  transition, is on at every moment (`NeededIsOn`, `InterleaveSmooth`), and
  without failures the order does not matter: interleavings that come to rest
  in the same states leave the same counts and the same resources powered
  (`OrderDoesNotMatter`).
- **Outcomes.** What each request does is also told without the functions that
  do it.  With reliable firmware a change of state succeeds if and only if the
  device has the state, no parent is deeper, D3 is left for D0 or for D3cold
  only, and the device is not adrift (`SetPowerSucceedsExactlyWhen`); D3cold is
  entered by powering D3hot, evaluating `_PS3`, and only then dropping the list
  (`ColdThroughHot`); a state is read as the deeper of what the resources and
  `_PSC` show (`ReadOutcome`); initialisation takes exactly the list of the state
  read (`InitPowerTakes`); nested wakeup calls amount to one (`NestedBracket`).
- **Rollbacks.** A failed power-on restores every count if and only if no `_OFF`
  of its rollback fails; a failed power-off likewise, given that what it
  dropped was held.
- **Wakeup brackets.** A wakeup mark belongs to the resource, not to the device.
  Enabling and disabling wakeup of a device restores every count and mark if
  and only if no resource it lists was marked before (`BracketRestores`).
- **Mapping ledger, NVS round trip.** Counts are outstanding references, and
  unmap finds the very mapping that was acquired.  Requests inside one page share
  one mapping for as long as it is held (`OnePageOneMapping`).  Whatever other clients do to
  the mapping list between save and restore or free, every saved pointer still
  leads to its own page, restore puts back the saved bytes on the union of the
  regions and nothing else, and free returns exactly the references taken.
- **Embedded controller.** For every interleaving of polling, interrupts and
  restarts the port traffic since the last command is exactly the data
  accounted for.  A controller that is ready is served within a known number of
  steps, whatever interrupts come between (`PromptSucceeds`), and one that never
  answers is given up after six commands and no data (`DeadTimesOut`).
- **Where code and intent part.** The `_PSS` frequency check wraps around
  (`KeptExactlyWhenNoneWraps`), domain counts are truncated to an `int` before
  they are compared (`SharingFollowsCounts`), a query claim whose work cannot be
  queued is never answered again (`LostExactlyWhen`), a pointer to an empty range
  can release a neighbour's mapping (`UnmapExactlyWhenClear`), and package sizes
  are computed modulo 2^32 (`Measure`, `Extract`).  Each has a concrete input or
  outcome and the exact condition under which the code does what it is for.

## Model

| member | source | states |
|---|---|---|
| `PowerResources.OnSweepLaw` | drivers/acpi/power.c:277-297 | turning on a stretch of a list adds, for every resource, its occurrences among the entries taken; a counted resource stays powered, and one already in use is never counted down to zero or evaluated off meanwhile |
| `PowerResources.DropBackLaw` | drivers/acpi/power.c:387-391 | the rollback of a power-on gives up at most what the entries name, whatever fails, and does not touch a resource held beyond them |
| `PowerResources.OffSweepLaw` | drivers/acpi/power.c:323-344 | dropping from the back takes away exactly the occurrences dropped, never below zero, and never turns off a resource held beyond the list |
| `PowerResources.TakeBackLaw` | drivers/acpi/power.c:368-372 | the rollback of a power-off only adds references and keeps counted resources powered |
| `PowerResources.OnListLaw` | drivers/acpi/power.c:375-392 | success takes every occurrence; failure gives up nothing that was held before |
| `PowerResources.OffListLaw` | drivers/acpi/power.c:356-373 | success drops every occurrence; failure drops no more than that |
| `PowerResources.ExchangeLaw` | drivers/acpi/power.c:818-832 | taking the new list before dropping the old one moves a count by at least the difference of the lists, and a failure gives up nothing |
| `PowerResources.ExchangeExact` | drivers/acpi/power.c:818-829 | when both halves succeed the count moves by exactly the difference, repeated resources included |
| `PowerResources.ReliableExchange` | drivers/acpi/power.c:818-829 | without firmware failures the exchange succeeds and is exact |
| `PowerResources.ExchangeSteady` | drivers/acpi/power.c:356-392 | no glitch: a resource in use before and after never reaches count zero and never has `_OFF` evaluated in between, rollback paths included |
| `PowerResources.DropBackExact` | drivers/acpi/power.c:387-391 | undoing a power-on is exact for a resource if and only if none of its `_OFF` evaluations fails |
| `PowerResources.TakeBackExact` | drivers/acpi/power.c:368-372 | undoing a power-off is exact for a resource if and only if none of its `_ON` evaluations fails |
| `PowerResources.OnListRollback` | drivers/acpi/power.c:375-392 | a failed power-on restores every count if and only if no `_OFF` of its rollback fails |
| `PowerResources.OffListRollback` | drivers/acpi/power.c:356-373 | a failed power-off restores every count, given the dropped entries were held, if and only if no `_ON` of its rollback fails, and conversely |
| `ResourceList.ListingLaw` | drivers/acpi/power.c:108-133 | adding resources to an ascending list keeps it ascending, holds each as often as before and added, and keeps ties in arrival order |
| `ResourceList.InsertAscending` | drivers/acpi/power.c:122-131 | insertion before the first greater entry keeps the list ascending |
| `ResourceList.InsertRank` | drivers/acpi/power.c:122-131 | an inserted resource goes behind all entries of its own order and no other tie moves |
| `ResourceList.List.Add` | drivers/acpi/power.c:108-133 | the in-place search and insertion is that insertion |
| `ResourceList.List.Extract` | drivers/acpi/power.c:145-176 | every package element is added to the list in resource order, or, if one is unusable, the whole list is freed |
| `ResourceList.OnOrder` | drivers/acpi/power.c:380-384 | `_ON` is evaluated in ascending resource order |
| `ResourceList.OffOrder` | drivers/acpi/power.c:361-365 | `_OFF` is evaluated in descending resource order |
| `PowerLedger.TransitionLaw` | drivers/acpi/power.c:802-835 | a transition shrinks no slack, changes none with reliable firmware, and records the target state on success |
| `PowerLedger.EnableSweepLaw` | drivers/acpi/power.c:672-691 | enabling wakeup takes exactly one reference for each mark it sets, wherever it stops |
| `PowerLedger.DisableSweepLaw` | drivers/acpi/power.c:735-754 | disabling wakeup drops exactly one reference for each mark it clears, wherever it stops |
| `PowerLedger.EnableWakeupLaw` | drivers/acpi/power.c:659-703 | enabling wakeup changes no slack, whatever fails |
| `PowerLedger.DisableWakeupLaw` | drivers/acpi/power.c:711-759 | disabling wakeup changes no slack, whatever fails |
| `PowerLedger.WakeInitSweepLaw` | drivers/acpi/power.c:555-584 | initialising a wakeup list shrinks no slack |
| `PowerLedger.WakeInitGain` | drivers/acpi/power.c:555-584 | initialising a wakeup list counts every occurrence of a resource found on, while its mark stands for one: the exact surplus |
| `PowerLedger.GetPowerLaw` | drivers/acpi/device_pm.c:71-134 | reading a state changes no count, and no slack unless it promotes a parent that needs resources in D0 |
| `PowerLedger.SetPowerLaw` | drivers/acpi/device_pm.c:157-235 | setting a state, with D3cold entered through D3hot, shrinks no slack on any failure path and changes none with reliable firmware |
| `PowerLedger.InitPowerLaw` | drivers/acpi/device_pm.c:258-291 | initialisation shrinks no slack; with reliable firmware the references of the forgotten state remain as exactly that much slack |
| `PowerLedger.UpdatePowerLaw` | drivers/acpi/device_pm.c:313-348 | following the hardware state shrinks no slack and changes none with reliable firmware, unless the read promotes a parent that needs resources in D0 |
| `PowerLedger.StepLaw` | drivers/acpi/power.c:802-835 | every step of any device shrinks no slack of any resource, keeps counted resources powered, and is exact where it accounts for what it takes |
| `PowerLedger.StepExact` | drivers/acpi/device_pm.c:258-291 | with reliable firmware a step leaves every slack alone if and only if it forgets no list held and marks no wakeup resource twice |
| `PowerLedger.RunLaw` | drivers/acpi/device_pm.c:157-348 | over every run and every pattern of failures no slack shrinks and counted resources are on; over exact runs without failures every slack is what it was |
| `PowerLedger.RunSafe` | drivers/acpi/power.c:277-392 | the ledger holds in every reachable state |
| `PowerLedger.InUseIsOn` | drivers/acpi/power.c:802-835 | under the ledger every resource of a current D-state is counted and on |
| `PowerLedger.NeverOffWhileInUse` | drivers/acpi/power.c:277-344 | after any run, every resource that a device's current D-state needs is on, whatever other devices and wakeup did |
| `PowerLedger.NoGlitch` | drivers/acpi/power.c:813-829 | a resource in both lists of a transition, marked for wakeup, or needed by another device never goes off during it, including failed and rolled back transitions |
| `PowerLedger.Conservation` | drivers/acpi/power.c:802-835 | over an exact run without failures in which only one device's state changed, its count changed by exactly the change of that device's uses |
| `PowerLedger.SetPowerReaches` | drivers/acpi/device_pm.c:157-235 | with reliable firmware a change of state that meets no objection arrives, and moves each count by exactly the difference of the lists |
| `PowerLedger.ReturnToCold` | drivers/acpi/device_pm.c:185-218 | powering down to D3cold, through D3hot where accessible, succeeds with reliable firmware and gives back exactly the list held |
| `PowerResume.ResumeKeeps` | drivers/acpi/power.c:930-959 | a resume pass changes no count and no mark, and without failures makes power follow the counts |
| `PowerResume.ResumeLaw` | drivers/acpi/power.c:930-959 | hardware and count of a resource agree after the pass if and only if they agreed before or none of its evaluations failed |
| `PowerResume.ListStateLaw` | drivers/acpi/power.c:205-235 | a nonempty list is reported on if and only if all of it is on |
| `PowerResume.InferredStateLaw` | drivers/acpi/power.c:761-792 | the inferred state is the least one whose nonempty list is all on, D3cold if there is none |
| `PowerResume.ResumeThenInfer` | drivers/acpi/power.c:761-792 | however sleep left the hardware, after a resume pass without failures a device recorded in Ds with a nonempty list is inferred to be in Ds or shallower |
| `PowerGround.PromotionBreaks` | drivers/acpi/device_pm.c:118-125 | recording D0 for an unknown parent breaks the ledger as soon as one resource it needs has no slack |
| `PowerGround.ReadBreaks` | drivers/acpi/device_pm.c:71-134 | reading the state of a powered child breaks the ledger whenever its parent is unknown and needs in D0 a resource without slack |
| `PowerGround.UngroundedBreaks` | drivers/acpi/device_pm.c:118-125 | for every set of devices with such a parent there is a platform on which the ledger holds and that one state read makes unsafe |
| `PowerGround.SafeExactlyWhenGrounded` | drivers/acpi/device_pm.c:118-125 | every run from every safe platform over a set of devices is safe if and only if no parent that may be promoted needs resources in D0 |
| `PowerGround.FirstOnFails` | drivers/acpi/power.c:802-835 | a device whose first `_ON` fails takes nothing and becomes unknown |
| `PowerGround.ColdRunBreaks` | drivers/acpi/power.c:818-832 | if `acpi_power_transition` may be called at any time: from a cold start with a single failing `_ON` the parent becomes unknown, the child makes its transition, and reading the child breaks the ledger, for every set of devices with such a parent |
| `PowerGround.ColdSafeExactlyWhenGrounded` | drivers/acpi/device_pm.c:118-125 | every run from a cold start, bare transitions at any time included, is safe if and only if no parent that may be promoted needs resources in D0 |
| `PowerShelter.UnknownIsStuck` | drivers/acpi/device_pm.c:157-235 | no request changes a device with power resources whose state is unknown |
| `PowerShelter.ChildIsStuck` | drivers/acpi/device_pm.c:178-183 | no request changes a child of a parent whose state is unknown |
| `PowerShelter.ShelteredIsHarmless` | drivers/acpi/device_pm.c:118-125 | while an unknown parent's resource is off, no read of a sheltered child finds D0 and promotes it |
| `PowerShelter.StepCalm` | drivers/acpi/device_pm.c:71-348 | every call keeps the ledger, and with it that a sheltered parent's resource is powered only while counted and is not counted while the parent is unknown |
| `PowerShelter.ShelteredRun` | drivers/acpi/device_pm.c:71-348 | over every run of calls and every pattern of failures sheltered devices keep the ledger, promotions of parents included |
| `PowerCalls.SetPowerCausal` | drivers/acpi/device_pm.c:157-235 | a change of state depends only on the answers firmware gives during it |
| `PowerCalls.SetFailsAt` | drivers/acpi/power.c:375-392 | a cold device whose first resource that is off fails to go on becomes unknown and leaves that resource uncounted |
| `PowerCalls.LoneChildBreaks` | drivers/acpi/device_pm.c:118-125 | for every platform with a root parent that needs resources in D0 and a child without any that has `_PSC`, two calls from a cold start break the ledger |
| `PowerCalls.MissingBreaks` | drivers/acpi/device_pm.c:157-235 | for every platform with a root parent that needs in D0 a resource its child does not, five calls with one failing `_ON` from a cold start break the ledger |
| `PowerCalls.OutsiderBreaks` | drivers/acpi/device_pm.c:118-125 | for every platform where a device outside the family can power all that a child needs, calls with one failing `_ON` from a cold start break the ledger |
| `PowerCalls.ShelteredIsSafe` | drivers/acpi/device_pm.c:71-348 | on every platform all runs of calls from a cold start are safe if each promotable parent needs a single resource that its child needs too and no outsider and no wakeup list does |
| `PowerCalls.SafeForCallsExactlyWhenSheltered` | drivers/acpi/device_pm.c:71-348 | with one D0 resource per device and families of two generations all runs of calls from a cold start are safe if and only if every promotable parent is sheltered |
| `PowerCalls.ShelteredNotGrounded` | drivers/acpi/device_pm.c:178-183 | a parent and a child on one resource are not grounded and yet safe for every run of calls |
| `PowerInterleave.MoveLaw` | drivers/acpi/power.c:356-392 | one counter update of a transition, in any phase and failing or not, shrinks no margin over what the transition is entitled to and never turns off a resource needed or held beyond it |
| `PowerInterleave.WakeLaw` | drivers/acpi/power.c:672-691 | one wakeup step, in either direction and failing or not, keeps the count beyond the mark and never turns off a resource counted beyond it |
| `PowerInterleave.InterleaveLaw` | drivers/acpi/power.c:299-392 | over every interleaving of transitions and wakeup steps, one resource at a time, and every pattern of failures each count covers the mark, the devices at rest and all unfinished transitions; without failures the difference never changes |
| `PowerInterleave.NeededIsOn` | drivers/acpi/power.c:802-835 | at every moment of every interleaving each resource a device needs is counted and on: the old list while the new one is being taken or given back, the new one from then on |
| `PowerInterleave.InterleaveSmooth` | drivers/acpi/power.c:299-392 | a resource that some device needs throughout an interleaving is never off in it, not even for a moment |
| `PowerInterleave.SpareAtRest` | drivers/acpi/power.c:802-835 | at rest the ledger of interleavings is the ledger of whole calls |
| `PowerInterleave.OrderDoesNotMatter` | drivers/acpi/power.c:299-392 | with reliable firmware two interleavings that come to rest in the same device states and marks leave the same count and the same power on every resource |
| `PowerInterleave.AloneIsTransition` | drivers/acpi/power.c:802-835 | a transition whose counter updates nothing comes between ends exactly as the whole call does, on every path |
| `PowerInterleave.EnableIsSteps` | drivers/acpi/power.c:672-691 | enabling a wakeup list is a run of single wakeup steps, as far as it gets |
| `PowerInterleave.DisableIsSteps` | drivers/acpi/power.c:735-754 | disabling a wakeup list is a run of single wakeup steps, as far as it gets |
| `PowerSteady.StepSteady` | drivers/acpi/device_pm.c:71-348 | whatever step another device makes and whatever fails in it, a resource in use never reaches count zero and never has `_OFF` evaluated |
| `PowerSteady.RunSteady` | drivers/acpi/device_pm.c:71-348 | over every run of other devices' steps a device keeps its state and none of its resources is off for a moment |
| `PowerSteps.SetPowerOutcome` | drivers/acpi/device_pm.c:157-235 | success records the target; failure leaves the old state, the one passed on the way or the unknown one; no other device's record changes |
| `PowerSteps.PoweredBeforeMethod` | drivers/acpi/device_pm.c:199-212 | power before methods: when `_PSx` is evaluated on the way into a state, it is the last evaluation and every resource of that state is on, whatever fails |
| `PowerSteps.BracketLaw` | drivers/acpi/power.c:659-759 | enabling and then disabling wakeup gives up, for a listed resource, also the reference of a mark set before |
| `PowerSteps.BracketRestores` | drivers/acpi/power.c:659-759 | a wakeup bracket gives back exactly what it took if and only if it found no listed resource marked |
| `PowerOutcomes.OnCall` | drivers/acpi/power.c:277-297 | `_ON` is evaluated exactly for the first reference, its failure is all that makes the call fail, and the count rises exactly on success |
| `PowerOutcomes.OffCall` | drivers/acpi/power.c:323-344 | `_OFF` is evaluated exactly for the last reference, without references nothing happens, and the count falls exactly on success |
| `PowerOutcomes.OnListFails` | drivers/acpi/power.c:375-392 | turning a list on fails if and only if some `_ON` fails |
| `PowerOutcomes.TransitionOutcome` | drivers/acpi/power.c:802-835 | each refusal, and otherwise success if and only if no `_ON` of the new list fails, with the failure to drop the old list ignored and the unknown state recorded on failure |
| `PowerOutcomes.SetPowerRefuses` | drivers/acpi/device_pm.c:157-197 | whatever the firmware, a state the device lacks, one shallower than its parent's, and leaving D3 for anything but D0 or from D3hot to D3cold are refused without a change and without an evaluation |
| `PowerOutcomes.SetPowerArrives` | drivers/acpi/device_pm.c:157-235 | every other request arrives when nothing fails, records its target and nothing else, and moves each count by the difference of the lists, with and without power resources |
| `PowerOutcomes.SetPowerSucceedsExactlyWhen` | drivers/acpi/device_pm.c:157-235 | with reliable firmware success if and only if the request is for the present state, or neither barred nor made of a device with resources in an unknown state |
| `PowerOutcomes.ColdThroughHot` | drivers/acpi/device_pm.c:185-218 | where D3cold is accessible: all that D3hot needs is on, then `_PS3` is evaluated if there is one, and from then on only the list of D3hot is dropped |
| `PowerReadings.ReadFails` | drivers/acpi/device_pm.c:71-134 | a read fails if and only if one of its evaluations fails, and changes no resource |
| `PowerReadings.ReadOutcome` | drivers/acpi/device_pm.c:71-134 | an unmanageable device is where its parent is; any other is in the deeper of the shallowest state whose resources are all on and what `_PSC` says; a device in D0 promotes exactly an unknown parent |
| `PowerReadings.EvidenceDecides` | drivers/acpi/device_pm.c:90-116 | resources and `_PSC` determine one state |
| `PowerReadings.InitPowerRecords` | drivers/acpi/device_pm.c:258-291 | whatever fails, success records the state read, D0 for an unknown one, and failure leaves the device unknown |
| `PowerReadings.InitPowerTakes` | drivers/acpi/device_pm.c:258-291 | when nothing fails the list of the state read is taken entry by entry, `_PSx` is evaluated last and the state recorded |
| `PowerReadings.UpdatePowerRecords` | drivers/acpi/device_pm.c:313-348 | whatever fails, success records the state read, and an unknown one is a request for D0 |
| `PowerReadings.UpdatePowerFollows` | drivers/acpi/device_pm.c:313-348 | when nothing fails the state read is recorded and each count moves by the difference of the lists, unless the device is adrift |
| `PowerWakeup.EnableOutcome` | drivers/acpi/power.c:659-703 | whatever fails: success marks every listed resource and then evaluates `_DSW`; what each failure leaves of the prepare count and the valid flag |
| `PowerWakeup.DisableOutcome` | drivers/acpi/power.c:711-759 | whatever fails: `_DSW` comes first and its failure keeps every resource; success leaves no listed resource marked; what failure leaves of the prepare count and the valid flag |
| `PowerWakeup.InnerCalls` | drivers/acpi/power.c:659-725 | inner calls only count, and invalid wakeup is refused |
| `PowerWakeup.NestedBracket` | drivers/acpi/power.c:659-759 | any number of enables followed by as many disables leave exactly what one of each leaves |
| `PowerWakeup.WakeInitFails` | drivers/acpi/power.c:555-584 | initialising a wakeup list goes through it if and only if no `_STA` fails |
| `PowerManager.Manager.PowerOn` | drivers/acpi/power.c:277-297 | the counter stores, `_ON` and the undo of a failure, in place |
| `PowerManager.Manager.PowerOff` | drivers/acpi/power.c:323-344 | the counter stores, `_OFF` and the undo of a failure, in place |
| `PowerManager.Manager.OnList` | drivers/acpi/power.c:375-392 | the forward loop and its backward rollback loop equal the sweep with its rollback |
| `PowerManager.Manager.OffList` | drivers/acpi/power.c:356-373 | the backward loop and its forward rollback loop equal the sweep with its rollback |
| `PowerManager.Manager.TakeBack` | drivers/acpi/power.c:368-372 | the forward rollback loop, in place |
| `PowerManager.Manager.DropBack` | drivers/acpi/power.c:387-391 | the backward rollback loop, in place |
| `PowerManager.Manager.Transition` | drivers/acpi/power.c:802-835 | all error returns, the exchange with the ignored result of the second half, and the recorded state |
| `PowerManager.Manager.EnableWakeup` | drivers/acpi/power.c:659-703 | the prepare count, the marks and the valid flag on every path |
| `PowerManager.Manager.DisableWakeup` | drivers/acpi/power.c:711-759 | the prepare count, the marks and the valid flag on every path |
| `PowerManager.Manager.WakeupListInit` | drivers/acpi/power.c:555-584 | the loop equals the sweep whose surplus is known, succeeds exactly when no `_STA` fails, and returns the lowest system level |
| `PowerManager.LowestIsLeast` | drivers/acpi/power.c:558-580 | the level of a wakeup list is the least of 5 and the levels of its resources |
| `PowerManager.Manager.ListState` | drivers/acpi/power.c:205-235 | the loop with its early exits equals the specified list state |
| `PowerManager.Manager.InferredState` | drivers/acpi/power.c:761-792 | the loop equals the specified inference |
| `PowerManager.Manager.Resume` | drivers/acpi/power.c:930-959 | the loop equals the specified resume pass |
| `PowerManager.Manager.GetPower` | drivers/acpi/device_pm.c:71-134 | inference corrected by `_PSC`, and the promotion of the parent |
| `PowerManager.Manager.SetPower` | drivers/acpi/device_pm.c:157-235 | all refusals, each without a change; otherwise the detour through D3hot and the states recorded on each failure |
| `PowerManager.Manager.InitPower` | drivers/acpi/device_pm.c:258-291 | the state, counts and evaluations of initialisation on every path; the state read is recorded exactly on success |
| `PowerManager.Manager.UpdatePower` | drivers/acpi/device_pm.c:313-348 | the state, counts and evaluations of an update on every path; success records the state read |
| `PowerManager.Manager.Do` | drivers/acpi/device_pm.c:71-348 | any one step in place keeps the ledger |
| `PowerManager.Manager.Perform` | drivers/acpi/device_pm.c:71-348 | any sequence of steps in place keeps the ledger |
| `MappingCache.Find` | drivers/acpi/osl.c:271-282 | the first mapping of the list covering a physical range, and none before it does |
| `MappingCache.FindVirt` | drivers/acpi/osl.c:314-325 | the first mapping of the list covering a virtual range, and none before it does |
| `MappingCache.Fresh` | drivers/acpi/osl.c:388-401 | a new mapping has one reference and consists of whole pages, from the one the range starts in to the one it ends in |
| `MappingCache.GetLaw` | drivers/acpi/osl.c:297-310 | a reference on an existing mapping keeps the ledger balanced |
| `MappingCache.MapLaw` | drivers/acpi/osl.c:358-408 | mapping, by sharing or by a new mapping, keeps the ledger balanced and every held reference on its own mapping |
| `MappingCache.DropBalanced` | drivers/acpi/osl.c:411-424 | giving up a reference, the last one included, keeps the ledger balanced for everyone else |
| `MappingCache.FoundByPhys` | drivers/acpi/osl.c:476-498 | a lookup by physical address finds the very mapping a reference was acquired on, even where ranges overlap |
| `MappingCache.FoundByVirt` | drivers/acpi/osl.c:314-325 | a lookup of the held pointer finds that same mapping if and only if no earlier mapping reaches the pointer, which holds for every nonempty range |
| `MappingCache.UnmapLaw` | drivers/acpi/osl.c:426-446 | unmapping a held pointer that no earlier mapping reaches drops the mapping it was acquired on and keeps the ledger balanced |
| `MappingCache.UnmapGenericLaw` | drivers/acpi/osl.c:476-500 | unmapping a generic address drops the mapping that mapping it acquired, empty ranges included |
| `MappingCache.UnmapExactlyWhenClear` | drivers/acpi/osl.c:426-446 | unmapping a held pointer keeps the ledger balanced if and only if no earlier mapping reaches the pointer |
| `MappingCache.EmptyRangeMisses` | drivers/acpi/osl.c:426-446 | for any two adjoining page mappings: releasing a pointer to an empty range at the start of the second drops the first |
| `MappingCache.StepBalanced` | drivers/acpi/osl.c:358-500 | every client step, generic addresses included, keeps the ledger balanced |
| `MappingCache.RunBalanced` | drivers/acpi/osl.c:358-500 | over every run each count is the number of outstanding references and each pointer translates its own physical address |
| `MappingCache.ListedExactlyWhileHeld` | drivers/acpi/osl.c:411-424 | a mapping is on the list exactly as long as a reference on it is held |
| `MappingPages.GetOutcome` | drivers/acpi/osl.c:297-310 | a reference is given if and only if a listed mapping holds the range, on the first that does, and changes only its count |
| `MappingPages.MapOutcome` | drivers/acpi/osl.c:358-408 | a held range raises one count; otherwise the list grows at its end by whole pages around the range with one reference, and the pointer has the offset into the first page; if that cannot be mapped nothing changes |
| `MappingPages.UnmapOutcome` | drivers/acpi/osl.c:426-446 | a pointer into no mapping changes nothing; otherwise the first mapping it leads into loses a reference, and leaves the list with its last |
| `MappingPages.GenericOutcome` | drivers/acpi/osl.c:455-500 | ports are ignored, incomplete addresses refused, memory mapped by whole bytes with the status telling whether; unmapping an unknown address changes nothing |
| `MappingPages.RunAligned` | drivers/acpi/osl.c:388-401 | over every run every mapping consists of whole pages |
| `MappingPages.OnePageOneMapping` | drivers/acpi/osl.c:358-408 | after any run a request inside a page of which a part is held is served by that very mapping, and the list does not grow |
| `Ioremap.Ioremaps.Lookup` | drivers/acpi/osl.c:271-282 | the loop returns the first covering mapping |
| `Ioremap.Ioremaps.LookupVirt` | drivers/acpi/osl.c:314-325 | the loop returns the first covering mapping |
| `Ioremap.Ioremaps.GetIomem` | drivers/acpi/osl.c:297-310 | list and pointer as specified; whoever held what, exactly this reference is added to the books |
| `Ioremap.Ioremaps.MapMemory` | drivers/acpi/osl.c:358-408 | high addresses are refused and early boot bypasses the list; otherwise the range is shared or mapped by whole pages with the right pointer, and exactly this reference is added to the books |
| `Ioremap.Ioremaps.MapShared` | drivers/acpi/osl.c:374-407 | sharing the first mapping that holds the range, appending whole pages around it, or failing, each exactly when due |
| `Ioremap.Ioremaps.DropRef` | drivers/acpi/osl.c:411-424 | one reference less, and off the list with the last one |
| `Ioremap.Ioremaps.UnmapMemory` | drivers/acpi/osl.c:426-446 | an unknown pointer and early boot change nothing; whoever held the pointer has released exactly that, unless an earlier mapping reaches it |
| `Ioremap.Ioremaps.MapGeneric` | drivers/acpi/osl.c:455-474 | what is ignored, refused and mapped of a generic address |
| `Ioremap.Ioremaps.UnmapGeneric` | drivers/acpi/osl.c:476-500 | whoever mapped the address has released exactly that |
| `NvsMemory.ChunksTile` | drivers/acpi/nvs.c:101-115 | the chunks of a region are nonempty, consecutive from its start to its end, and none crosses a page |
| `NvsMemory.AllChunksCover` | drivers/acpi/nvs.c:94-124 | a byte is in some chunk if and only if it is in some registered region |
| `NvsMemory.SaveCopies` | drivers/acpi/nvs.c:170-193 | after a complete save every allocated chunk holds the memory of its range |
| `NvsMemory.RestoreLaw` | drivers/acpi/nvs.c:202-211 | restoring through pointers that lead to their pages puts the saved bytes back on every saved chunk, overlapping ones included, and touches nothing else |
| `NvsMemory.RoundTrip` | drivers/acpi/nvs.c:94-211 | save, any steps of other clients, any change of memory, then restore through the saved pointers: the union of the regions is as saved and every other byte is as it had become |
| `NvsMemory.SaveLaw` | drivers/acpi/nvs.c:170-193 | a save keeps the mapping ledger balanced, its references added when it completes and returned when it fails midway |
| `NvsMemory.FreeLaw` | drivers/acpi/nvs.c:129-148 | freeing returns exactly the references the pages took, whether or not anyone else holds their mappings |
| `NvsMemory.FailedSaveClears` | drivers/acpi/nvs.c:182-189 | a failed save leaves no chunk allocated |
| `NvsMemory.SaveThenFree` | drivers/acpi/nvs.c:129-193 | a save, complete or failed midway, and then a free leave the mapping list exactly as it was |
| `NvsMemory.StillHeld` | drivers/acpi/nvs.c:170-193 | the references of saved chunks outlast whatever other clients do to the list |
| `NvsMemory.FreeAfterOthers` | drivers/acpi/nvs.c:129-193 | a free after a save and any steps of other clients, including ones that drop every other reference on a chunk's mapping, leaves the list balanced for exactly what the others hold |
| `NvsMemory.TargetsHold` | drivers/acpi/nvs.c:202-211 | while its reference is in the books, a saved chunk's pointer leads to the chunk |
| `NvsMemory.RestoreAfterOthers` | drivers/acpi/nvs.c:202-211 | however other clients have changed the list, restoring puts the saved bytes back on the regions and nowhere else |
| `NvsOutcomes.ChunksArePages` | drivers/acpi/nvs.c:101-115 | every chunk but the last ends with its page, so there is one for each page touched, and none has a buffer or pointer yet |
| `NvsOutcomes.SavePageOutcome` | drivers/acpi/nvs.c:170-190 | a chunk is saved if and only if it has no buffer or can be mapped, and only counts of the list change |
| `NvsOutcomes.SaveSucceedsExactlyWhen` | drivers/acpi/nvs.c:170-193 | a save succeeds if and only if every chunk with a buffer is held by a listed mapping or can be mapped on its own |
| `NvsOutcomes.SaveOutcome` | drivers/acpi/nvs.c:170-193 | each saved chunk holds its memory and a pointer into the first mapping that holds it, or, exactly when none does, to a mapping of its own marked to be undone |
| `NvsOutcomes.FreeOutcome` | drivers/acpi/nvs.c:129-148 | every chunk with a buffer loses buffer and pointer, and the others are left alone |
| `NvsDriver.Nvs.Register` | drivers/acpi/nvs.c:94-124 | the loop appends exactly the chunks; one failed allocation empties the whole list |
| `NvsDriver.Nvs.Free` | drivers/acpi/nvs.c:129-148 | chunks and mapping list as specified; whoever else holds what, exactly the chunks' references are given back |
| `NvsDriver.Nvs.Save` | drivers/acpi/nvs.c:170-193 | chunks, mapping list and result as specified; success exactly when every chunk can be mapped, with each pointer from where it should be; exactly the chunks' references are added to the books, none if it fails midway |
| `NvsDriver.Nvs.Restore` | drivers/acpi/nvs.c:202-211 | every saved chunk is written back through its pointer, as specified |
| `EcTransaction.AdvanceTraced` | drivers/acpi/ec.c:175-213 | an advance with any status keeps the traffic since the last command equal to the data accounted for and never undoes completion |
| `EcTransaction.StartTraced` | drivers/acpi/ec.c:168-173 | a start begins a new trace with one command |
| `EcTransaction.RunInvariant` | drivers/acpi/ec.c:224-251 | every interleaving of polling, interrupts and restarts keeps the trace and the count of commands |
| `EcTransaction.TransactionTrace` | drivers/acpi/ec.c:224-273 | for every interleaving: success means all of wdata written and then all of rdata read since the last command, with at most five commands; a timeout means six |
| `EcProgress.AdvanceHandshake` | drivers/acpi/ec.c:175-213 | a byte is written exactly when one is left and the input buffer is empty, read exactly when none is left to write and the output buffer is full; when the transaction becomes done, and which interrupts are counted |
| `EcProgress.ReturnedIsFinal` | drivers/acpi/ec.c:253-273 | after the return nothing touches the transaction or the ports |
| `EcProgress.PromptSucceeds` | drivers/acpi/ec.c:224-273 | with a controller that is ready and time left, any run with three steps of the thread for each byte and two more has returned successfully after a single command, whatever interrupts came between |
| `EcProgress.InterruptsFinish` | drivers/acpi/ec.c:175-213 | interrupts of a controller that is ready complete the transaction without the thread, one for each byte |
| `EcProgress.LateReturns` | drivers/acpi/ec.c:224-251 | whatever the controller does, a thread that always finds its time up returns within 21 steps |
| `EcProgress.DeadTimesOut` | drivers/acpi/ec.c:224-251 | a controller that never answers makes the call time out after exactly six commands and no data |
| `EcDriver.Ec.StartTransaction` | drivers/acpi/ec.c:168-173 | the fields reset and the command sent |
| `EcDriver.Ec.AdvanceTransaction` | drivers/acpi/ec.c:175-213 | every branch of the advance by what reaches the ports, the 16-bit count of empty interrupts included; nothing without a transaction |
| `EcDriver.Ec.Attempt` | drivers/acpi/ec.c:229-244 | the inner loop follows the machine for any schedule and ends done or out of time |
| `EcDriver.Ec.Poll` | drivers/acpi/ec.c:224-251 | the outer loop follows the machine through up to five restarts |
| `EcDriver.Ec.TransactionUnlocked` | drivers/acpi/ec.c:253-273 | what each return value says about the traffic on the ports, for every schedule; success with a controller that is ready, timeout with one that never answers |
| `EcQuery.RunOrderly` | drivers/acpi/ec.c:215-222 | if only the driver sends the query command, at most one query waits, the flag is set whenever one does, and no claim is forgotten |
| `EcQuery.LostClaimIsFinal` | drivers/acpi/ec.c:616-626 | once a claim is lost the flag stays set, nothing waits and nothing is sent, whatever the driver does |
| `EcQuery.LostClaim` | drivers/acpi/ec.c:616-626 | from a quiet start one event whose work cannot be queued silences every later one |
| `EcQuery.LostExactlyWhen` | drivers/acpi/ec.c:616-626 | a run ends with a lost claim if and only if some event of it found the flag clear and its work could not be queued |
| `EcQuery.SciAnswered` | drivers/acpi/ec.c:616-626 | after a run an SCI leaves a query waiting if and only if no event of the run found the flag clear and could not queue its work |
| `EcQuery.ForeignQueryKeepsOrder` | drivers/acpi/ec.c:265-266 | a query command from elsewhere keeps the protocol if and only if no query was waiting or lost |
| `EcQuery.TwoQueriesWait` | drivers/acpi/ec.c:446-460 | with a query command from elsewhere two queries can wait at once |
| `EcQuery.Queries.CheckSci` | drivers/acpi/ec.c:616-626 | keeps the protocol orderly: an SCI leaves exactly one query waiting or lost and the flag set; it queues exactly when it finds the flag clear and the work can be queued |
| `EcQuery.Queries.CheckSciSync` | drivers/acpi/ec.c:215-222 | keeps the protocol orderly: it queries exactly when it finds the flag clear, SCIs before its command queue nothing, and the command leaves nothing waiting |
| `EcQuery.Queries.GpeQuery` | drivers/acpi/ec.c:606-614 | keeps the protocol orderly: SCIs before the command queue nothing, and the command leaves the flag clear and nothing waiting |
| `Coordination.GroupsPartition` | drivers/acpi/processor_throttling.c:113-189 | the masks partition the present processors, and two of them share exactly when they name one domain some member of which counts more than one |
| `Coordination.SharingFollowsCounts` | drivers/acpi/processor_throttling.c:129-158 | a processor shares if and only if its own count exceeds one, exactly when no leader's count is truncated to one or less |
| `Coordination.TruncatedCount` | drivers/acpi/processor_throttling.c:129-158 | a processor that counts itself alone but is made to share |
| `Coordination.Coordinate` | drivers/acpi/processor_throttling.c:113-189 | the nested loops succeed exactly for consistent packages, leave every present processor with its group, and for P-states record the domain's type |
| `Coordination.Collect` | drivers/acpi/processor_throttling.c:132-168 | one domain gathered if and only if all its packages agree |
| `Coordination.Copy` | drivers/acpi/processor_throttling.c:169-188 | every other member of the domain gets the same mask and nobody else does |
| `Coordination.RecordTypes` | drivers/acpi/processor_perflib.c:715-764 | a leader's shared type follows its coordination type and is given to its domain and nobody else |
| `Coordination.UpdateTsdCoord` | drivers/acpi/processor_throttling.c:75-212 | success exactly for valid and consistent packages; any failure leaves every present processor with exactly itself and the type SW_ALL |
| `Coordination.PreregisterPerformance` | drivers/acpi/processor_perflib.c:639-790 | busy or missing data change nothing and the first such processor decides the error; otherwise success exactly for valid and consistent packages, with groups and types, and any failure leaves every present processor alone |
| `Coordination.CheckInput` | drivers/acpi/processor_perflib.c:656-676 | the first processor that is busy or was given no data decides the error |
| `PackageExtraction.LayoutHead` | drivers/acpi/utils.c:182-254 | every head word is where the format says it is |
| `PackageExtraction.LayoutTail` | drivers/acpi/utils.c:182-254 | the tails follow one another without gap or overlap up to the end of the buffer |
| `PackageExtraction.LayoutStart` | drivers/acpi/utils.c:182-254 | the next pointer found in the buffer is the offset of the next tail |
| `PackageExtraction.RoundTrip` | drivers/acpi/utils.c:99-256 | reading the buffer back by the format alone returns every element |
| `PackageWriter.Measure` | drivers/acpi/utils.c:99-167 | the sizing pass accepts exactly the supported packages, reports the first unsupported element, and computes the size modulo 2^32 |
| `PackageWriter.NeedsSize` | drivers/acpi/utils.c:99-167 | the sizing pass and the writing pass agree on every prefix |
| `PackageWriter.Output.PutElement` | drivers/acpi/utils.c:194-253 | one element extends head and tail by its pieces and writes no byte a second time |
| `PackageWriter.Output.Fill` | drivers/acpi/utils.c:179-254 | head ends at the tail offset, tail at the required size, every byte is written exactly once, and the buffer is the layout |
| `PackageWriter.Output.Extract` | drivers/acpi/utils.c:58-257 | each status exactly when it is due; success fills the buffer with the layout, overflow reports the size modulo 2^32, no refusal touches the buffer, and the writing pass would leave the buffer exactly for packages of 2^32 bytes or more that pass the comparison |
| `OscNegotiation.Root.QueryOsc` | drivers/acpi/pci_root.c:159-186 | the words sent with and without a control word, the answer, and the support word remembered on success only |
| `OscNegotiation.Root.Negotiate` | drivers/acpi/pci_root.c:353-361 | for every firmware, the queries are the answers of the firmware to what was asked, a result is the last answer and is confirmed, and a failure is firmware refusing what is asked next; firmware that grants only what it is asked for settles within a known number of queries, each asking for no more than the one before |
| `OscNegotiation.Root.Loop` | drivers/acpi/pci_root.c:353-361 | the loop goes on exactly as long as the answer differs from what was asked |
| `OscNegotiation.Root.ControlSet` | drivers/acpi/pci_root.c:324-377 | for every firmware: queries until they settle, then a request for the last answer exactly if that holds everything required; only refusal by the firmware or the end of patience prevents it; the control set changes only with a successful request; honest firmware that never fails is answered Ok or, exactly when a required bit is missing, with no support |
| `OscNegotiation.FlipNeverSettles` | drivers/acpi/pci_root.c:353-361 | run against a firmware that grants what it was not asked for, the loop spends every query it is allowed without settling |
| `C3Arbitration.RunValid` | drivers/acpi/processor_idle.c:874-893 | for any interleaving the counter is the number of CPUs inside, and arbitration is disabled exactly while every online CPU is |
| `C3Arbitration.RunInside` | drivers/acpi/processor_idle.c:874-893 | who is between the two sections after any run: exactly the flagged CPUs whose last section was the first |
| `C3Arbitration.CountedByRun` | drivers/acpi/processor_idle.c:874-893 | after any run from a quiet start the counter is the number of those CPUs, and arbitration is disabled exactly when they are all that are online |
| `C3Arbitration.Arbiter.BeforeC3` | drivers/acpi/processor_idle.c:874-881 | the first locked section keeps counter and bit valid: arbitration is disabled exactly when the counter is the number of online CPUs |
| `C3Arbitration.Arbiter.AfterC3` | drivers/acpi/processor_idle.c:888-893 | the second locked section keeps counter and bit valid: arbitration is enabled and not all CPUs are inside |
| `DutyCycle.FieldOfSpread` | drivers/acpi/processor_throttling.c:700-705 | a number put into the field positions is the number read from them |
| `DutyCycle.SetThenGet` | drivers/acpi/processor_throttling.c:673-710 | a performed set is read back as the same state, every bit outside the field and bit 4 is kept, and bit 4 is set exactly for a nonzero state |
| `DutyCycle.StateRange` | drivers/acpi/processor_throttling.c:673-710 | every register value stands for a state the field can hold, and for no throttling exactly when bit 4 is clear or the field empty |
| `DutyCycle.GetThenSet` | drivers/acpi/processor_throttling.c:673-1029 | setting the state just read leaves the register as it is, except that bit 4 without a duty value is cleared |
| `DutyCycle.WritesCareful` | drivers/acpi/processor_throttling.c:1006-1027 | the duty field changes only while bit 4 is clear |
| `DutyCycle.Throttling.Get` | drivers/acpi/processor_throttling.c:673-717 | the state recorded is the one the register stands for |
| `DutyCycle.Throttling.Program` | drivers/acpi/processor_throttling.c:1004-1029 | exactly the careful writes reach the register, which ends at the programmed value |
| `DutyCycle.Throttling.Set` | drivers/acpi/processor_throttling.c:968-1039 | each refusal exactly when it is due, and otherwise exactly the careful writes |
| `IrqBalance.BestIsLeast` | drivers/acpi/pci_link.c:551-560 | the reverse scan ends at a candidate of least penalty and leaves a least one alone |
| `IrqBalance.BestIsLast` | drivers/acpi/pci_link.c:551-560 | the scan changes its mind only for the last of the better candidates |
| `IrqBalance.ChargeKeepsSpread` | drivers/acpi/pci_link.c:571 | charging a least candidate widens no spread beyond the larger of itself and one charge |
| `IrqBalance.SpreadBounded` | drivers/acpi/pci_link.c:514-579 | over any run of links the spread of penalties never exceeds the larger of its first value and PCI_USING, and penalties count uses |
| `IrqBalance.EvenUse` | drivers/acpi/pci_link.c:514-579 | candidates that start equal are used equally often, up to one |
| `IrqBalance.Router.SetLink` | drivers/acpi/pci_link.c:296-403 | success makes the interrupt active, failure leaves the active one or loses it, and no other link changes |
| `IrqBalance.Router.Choose` | drivers/acpi/pci_link.c:526-561 | the choice is a least candidate when balancing or nothing is active, keeps an active one that is least or not to be moved, and otherwise is the last of its penalty |
| `IrqBalance.Router.Allocate` | drivers/acpi/pci_link.c:514-579 | on success the chosen interrupt is active and charged and the link initialised; on failure nothing is charged; a link already initialised is programmed again only if unreferenced |
| `IrqBalance.Router.AllocateAll` | drivers/acpi/pci_link.c:514-579 | links sharing one set of candidates keep the spread bounded, with any failures in between |
| `PerformanceStates.CheckExactUnlessWrapped` | drivers/acpi/processor_perflib.c:428-433 | the frequency check accepts exactly the representable frequencies if and only if the product does not wrap around to a small number; it never does for products below 2^64 |
| `PerformanceStates.WrappedFrequency` | drivers/acpi/processor_perflib.c:428-433 | a frequency that is accepted although it is not representable |
| `PerformanceStates.KeptExactlyWhenNoneWraps` | drivers/acpi/processor_perflib.c:428-449 | the states kept are exactly the representable ones if and only if no product wraps around |
| `PerformanceStates.AllRepresentableExactlyWhenNoneWraps` | drivers/acpi/processor_perflib.c:428-449 | every state kept is representable if and only if no product wraps around |
| `PerformanceStates.AllUsable` | drivers/acpi/processor_perflib.c:437-460 | nothing is squeezed out if and only if every state is accepted |
| `PerformanceStates.SqueezedNext` | drivers/acpi/processor_perflib.c:431-449 | one step of the squeeze keeps the accepted states at the front, in order |
| `PerformanceStates.Extract` | drivers/acpi/processor_perflib.c:399-460 | exactly the accepted states remain, in order; it fails exactly when an element cannot be read or there are states and none is accepted |

## Left out

- Locks, RCU and work queues as mechanisms: apart from whole power calls a locked section is one step, and dropping a mapping's last reference and cleaning up after it is one step.
- Width of counters and addresses: reference counts, prepare counts and penalties are unbounded, and `phys + size` does not wrap.
- MappingCache.MapLaw: where a new mapping is placed, and whether it can be made, is an input, and fresh virtual ranges are assumed apart from live ones; kmap and ioremap are not told apart.
- PackageWriter.Output.Extract: what a writing pass that leaves the buffer overwrites is not modelled; the call then ends with the model's own status `Overrun`.
- PackageExtraction.RoundTrip: assumes that the buffer lies within 64-bit addresses.
- OscNegotiation.Root.Negotiate: firmware is a function of the words it is given; the loop has a bound of the model's own on its queries, which honest firmware does not reach, and `FlipNeverSettles` shows firmware that reaches every bound.
- DutyCycle.Throttling.Set: the driver's copy of duty width and offset and the one in the FADT are taken to be equal, as `drivers/acpi/processor_driver.c:353-354` makes them.
- Coordination.Coordinate: the shared type of a domain with an unknown coordination type, which reading the packages refuses, is not stated.
- PowerReadings.InitPowerRecords: no device is its own parent.
- EcProgress.PromptSucceeds: a step of the thread is one of the loop's waits, advances, looks at the clock or returns; real time is not modelled.
- PowerManager.Manager.EnableWakeup: `_DSW` with its fallback to `_PSW` is one evaluation.
- PowerGround.ColdSafeExactlyWhenGrounded: no device is its own parent, and `acpi_power_transition`, which is internal, may be called at any time; `SafeForCallsExactlyWhenSheltered` is about the calls drivers make.
- PowerGround.ColdRunBreaks: its second step is a bare transition, which `acpi_device_set_power` refuses; `LoneChildBreaks`, `MissingBreaks` and `OutsiderBreaks` break the ledger by calls.
- PowerGround.UngroundedBreaks: the platform it starts from need not be reachable; the runs of `PowerCalls` start cold.
- PowerCalls.SafeForCallsExactlyWhenSheltered: exact where every device has at most one resource, in D0 only, no wakeup resources, and no grandparent; calls of enumeration, which come before those of drivers, are not among the calls.
- PowerInterleave.InterleaveLaw: a device makes one transition at a time; reading states, and with it the promotion of parents, is not interleaved.
- NvsMemory.Restore: a pointer that leads nowhere in the modelled memory writes nothing of it.
- The locks left held by the resume pass when `_STA` fails, dependent devices and runtime resume requests, and sysfs of power resources.
- Allocation failures other than those of NVS registration, and `suspend_nvs_alloc`.
- Constants of absent headers: the D-state numbers (D3hot 3, D3cold 4, unknown 255), coordination types and shared types are written out, the `_OSC` masks are parameters.
- `_PRS` and `_CRS` parsing and the initial penalties of `pci_link.c`: candidate lists are nonempty, without holes and inside the penalty table.
- The AMD frequency fix-up, the performance control registers, and the performance figures of throttling states.
- The recorded T-state against the programmed one in `acpi_processor_set_throttling`, whose notifier result and written value differ.
- Wakeup marks belong to a resource, not to a device, so nothing is claimed about a wakeup resource staying on for each of its devices; `BracketRestores` shows what a second device takes away.
- AML evaluation, the namespace, table parsing, thermal, NUMA, memory hotplug, batteries, buttons, fans and the other small drivers: they would only add easier members.
