# Two-channel load-cell scale: measurement and control core

This project models, in Dafny, the per-cycle core of the CedarGroveStudios
two-channel kitchen scale firmware (CircuitPython, NAU7802 load-cell
converter, PyPortal/Clue touch displays), across the firmware revisions that
share it. It covers:

- averaging raw converter samples into one reading (`read`), in the skipping
  form (a sample that is not ready is skipped but still counted) and the
  blocking form (wait until each sample is ready), both truncating toward
  zero (`int(sum / samples)`);
- turning a reading into the shown channel mass: `round((raw - zero) * ratio, 1)`
  minus a tare, then the "-0.0" text filter — with the tare gated by its
  enable (generic bundle, bundle_v2.0, code/, bundle/, archive/bundle_v1.0,
  in-progress_bundle), without a software zero (v3.0 v8), subtracted
  unconditionally (PyPortal revisions), or with no tare and no filter (Clue);
- the two alarms (inclusive `>=`) and the status line;
- the touch-button panel: the hold-timeout setter, and `read_buttons`, with
  its hold time and timeout tone;
- button dispatch in its three generations (tap/hold with persistence,
  toggle-only, toggle-with-capture) and the Clue re-zero;
- the settings record and its stores: the NVM store (marker cell, default
  repair, guarded and unguarded fetch, undecodable memory and a board
  without that memory) and the SD-card settings file.

Floats on the 0.1 g grid are `Mass.Grams` (`Tenths(n)` or an explicit
`MinusZero` for Python's -0.0), so the `str(x) == "-0.0"` filter and the
sign rules of float subtraction are modelled exactly. The binary rounding
error of a float subtraction is not: a tared mass is taken on the grid (see
Left out). Python's `round` is
half-to-even (`Numeric.RoundHalfEven`), and `int(a / b)` truncates toward
zero (`Numeric.TruncDiv`). Hardware, time and the touchscreen are
parameters: a poll stream for the converter, a touch point plus a stream
of `touch_point` polls for the panel, and the converter's zero reading for
`zero_channel`.

Where the code and the design notes disagree, the model follows the code:

- `read_settings` does not reject a partial record: a record of at least
  eight fields whose first four are numbers is used, extra fields are
  ignored, and a short one raises IndexError (`Settings.Decode`).
- The v3.0 v8 revision has no software zero offset: `zero_channel` returns
  nothing and calibrates the converter instead (`Channel.MassNoOffset`,
  `Dispatch.TapHold` with `softwareZero` false).
- Channel 2's alarm is compared with the compiled `ALARM_2_MASS_GR`, not the
  live `alarm_2_mass_gr` (`Alarms.CheckAsWritten`; see Findings).

## Model

| member | source | states |
|---|---|---|
| Numeric.TruncDiv | bundle_v3.0_generic/scale_code.py:106 | `int(sum / samples)`: the quotient's magnitude is the floor of the magnitudes' quotient and its sign is the sign of the exact quotient, so the result truncates toward zero |
| Numeric.TruncDivNegate | bundle_v3.0_generic/scale_code.py:106 | truncation is symmetric: negating the dividend negates the average |
| Numeric.TruncDivNonNegative | bundle_v3.0_generic/scale_code.py:106 | for a non-negative sum and a positive count, `int(sum / samples)` is ordinary floor division |
| Numeric.TruncDivTowardZero | bundle_v3.0_generic/scale_code.py:106 | the average is never farther from zero than the exact quotient |
| Numeric.TruncDivDiffersFromEuclidean | bundle_v3.0_generic/scale_code.py:106 | -7 over 2 averages to -3, where floor/Euclidean division gives -4 |
| Numeric.RoundHalfEven | bundle_v3.0_generic/scale_code.py:202 | Python's `round`: within 0.5 of the input, and an exact tie goes to the even neighbour |
| Numeric.RoundHalfEvenUnique | bundle_v3.0_generic/scale_code.py:202 | those two properties determine the rounded value uniquely |
| Mass.Round | bundle_v3.0_generic/scale_code.py:202 | `round(x, 1)` lies within 0.05 g of x, and is -0.0 exactly when x is negative and rounds to zero |
| Mass.Minus | bundle_v3.0_generic/scale_code.py:202 | float subtraction of the tare, taken on the 0.1 g grid: the value is the difference in tenths, and the result is -0.0 exactly when -0.0 minus +0.0 |
| Mass.Str | bundle_v3.0_generic/scale_code.py:204 | `str` of a grid float has at least three characters with "." second to last, and starts with "-" exactly for a negative value or -0.0 |
| Mass.StrMinusZeroText | bundle_v3.0_generic/scale_code.py:204 | `str(g) == "-0.0"` holds exactly for negative zero |
| Mass.Shown | bundle_v3.0_generic/scale_code.py:204-205 | the "-0.0" filter keeps the value, never leaves -0.0, and changes nothing else |
| Sampling.Average | bundle_v3.0_generic/scale_code.py:99-106 | a zero sample count raises ZeroDivisionError; otherwise the result is the truncated quotient |
| Sampling.ReadSkipping | bundle_v3.0_generic/scale_code.py:99-106 | the skipping read loop computes the sum of the ready samples among the first `samples` polls, divided by `samples` |
| Sampling.WaitReady | v3.0_bundle_v8.0.0-beta.4/scale_code.py:151-152 | the busy-wait on `available()` stops at the first ready poll and reads nothing on the way, provided readings remain ahead |
| Sampling.ReadBlocking | v3.0_bundle_v8.0.0-beta.4/scale_code.py:145-155 | the blocking read loop averages the first `samples` ready readings and stops right after the last of them |
| Sampling.SkippingIsZeroFilledBlocking | bundle_v3.0_generic/scale_code.py:103-105 | a skipped sample counts as a zero reading: the skipping read equals the blocking read of the stream with not-ready polls replaced by 0 |
| Sampling.AllReadyAgree | v3.0_bundle_v8.0.0-beta.4/scale_code.py:150-153 | when every poll is ready, the two reads agree |
| Sampling.SkippingReadBounds | bundle_v3.0_generic/scale_code.py:99-106 | the average stays within any bounds (enclosing 0) that hold for every reading |
| Sampling.SkippingReadMissedExample | bundle_v3.0_generic/scale_code.py:104 | one missed sample among 10, 10, 11 over 4 drags the average down to 7 |
| Sampling.SkippingReadTruncatesExample | bundle_v3.0_generic/scale_code.py:99-106 | readings -3 and -4 average to -3, truncated toward zero |
| Sampling.SkippingReadNoSamplesExample | bundle_v3.0_generic/scale_code.py:106 | `read(0)` raises ZeroDivisionError |
| Channel.Gross | bundle_v3.0_generic/cedargrove_scale/configuration.py:27-34 | the gross mass is within 0.05 g of counts times the calibration ratio |
| Channel.TareTerm | bundle_v3.0_generic/scale_code.py:198-201 | the subtracted term is the tare mass when the tare is enabled and +0.0 when it is not |
| Channel.CalibrationPoint | bundle_v3.0_generic/cedargrove_scale/configuration.py:27-34 | 215300 net counts read as exactly 100.0 g |
| Channel.GatedMass | bundle_v3.0_generic/scale_code.py:197-217 | the shown mass is never -0.0 and lies within 0.05 g of the exact net mass minus the tare when the tare is enabled |
| Channel.DisabledTareIgnored | bundle_v3.0_generic/scale_code.py:197-202 | a disabled tare's value has no effect on the shown mass |
| Channel.UnloadedShowsZero | bundle_v3.0_generic/scale_code.py:197-205 | a channel reading exactly its zero offset shows 0.0 when its tare is off |
| Channel.TaredExample | bundle_v3.0_generic/scale_code.py:197-202 | 70.0 g under an enabled 68.0 g tare shows 2.0 g |
| Channel.EnabledTareShifts | bundle_v3.0_generic/scale_code.py:197-202 | on the 0.1 g grid, enabling a tare lowers the shown mass by exactly the tare |
| Channel.MassNoOffset | v3.0_bundle_v8.0.0-beta.4/scale_code.py:254-267 | without a software zero, the shown mass is never -0.0 and is within 0.05 g of raw times ratio minus the enabled tare |
| Channel.NoOffsetIsZeroOffset | v3.0_bundle_v8.0.0-beta.4/scale_code.py:254 | the v8 formula is the gated formula with a zero offset of 0 |
| Channel.UngatedMass | PyPortal_Scale_v20/code/code.py:610-625 | the PyPortal formula always subtracts the tare; the result is never -0.0 and is within 0.05 g of the exact net mass |
| Channel.ClearedTareIsGated | PyPortal_Scale/code/PyPortal_Scale_code.py:316-336 | clearing a disabled tare to 0.0 each frame makes the unconditional subtraction equal the gated one |
| Channel.ClueMass | Clue_Scale/code/clue_scale_code.py:186 | the Clue shows the gross mass, within 0.05 g of the net count times the ratio |
| Channel.ClueShowsMinusZero | Clue_Scale/code/clue_scale_code.py:186-188 | with no filter, one count below zero shows "-0.0", which the filtered formula shows as 0.0 |
| Channel.MinGr | Clue_Scale/code/clue_scale_code.py:20 | `-(MAX_GR // 5)`: the lower display bound is the negated floor of a fifth of the upper bound |
| Channel.MinGrExample | Clue_Scale/code/clue_scale_code.py:20 | with MAX_GR 100 the lower bound is -20 |
| Channel.OutOfRange | Clue_Scale/code/clue_scale_code.py:191 | with a range around zero, a zero mass of either sign keeps the needle normal, and a positive mass turns it red only above MAX_GR |
| Channel.OutOfRangeInTenths | Clue_Scale/code/clue_scale_code.py:191 | the needle turns red exactly when the mass lies outside [MIN_GR, MAX_GR] |
| Channel.OutOfRangeBounds | Clue_Scale/code/clue_scale_code.py:191 | with MAX_GR 100: 100.0 and -20.0 g are in range, 100.1 and -20.1 g are out, -0.0 is in |
| Settings.Record.WithMass | bundle_v3.0_generic/scale_code.py:293-298 | setting one mass changes that mass and nothing else |
| Settings.Record.WithOn | bundle_v3.0_generic/scale_code.py:280-290 | setting one enable changes that enable and nothing else |
| Settings.Encode | bundle_v3.0_generic/scale_code.py:302-311 | the stored record has eight fields: four masses, then four enables |
| Settings.MassAt | bundle_v3.0_generic/scale_code.py:60-67 | `round(settings[i], 1)` raises IndexError past the end and TypeError on text; a stored number is kept, a stored bool becomes 1.0 or 0.0 g |
| Settings.FlagAt | bundle_v3.0_generic/scale_code.py:69-72 | `bool(settings[i])` raises only past the end; a number is true iff nonzero, text iff non-empty, a stored bool is itself |
| Settings.Decode | bundle_v3.0_generic/scale_code.py:55-73 | `read_settings` succeeds exactly when there are at least eight fields and none of the first four is text; then each mass is `round(settings[i], 1)` of fields 0-3 and each enable is `bool(settings[i])` of fields 4-7, so older layouts (ints 0/1 as enables, bools as masses) decode as MassAt and FlagAt state |
| Settings.DecodeEncode | bundle_v3.0_generic/scale_code.py:55-73 | reading back a written record gives the same settings |
| Settings.DecodeIgnoresTail | bundle_v3.0_generic/scale_code.py:55-73 | fields after the eighth are ignored |
| Settings.EncodeInjective | bundle_v3.0_generic/scale_code.py:302-311 | distinct settings are stored as distinct records |
| Nvm.WriteSettings | bundle_v3.0_generic/cedargrove_scale/configuration.py:238-243 | wherever there is memory to save to, the store then holds the marker followed by the list, the caller's list gains the marker in front, and the result is True; on a board without the memory the save raises |
| Nvm.RestoreDefaults | bundle_v3.0_generic/cedargrove_scale/configuration.py:245-260 | the store then holds a valid record of the defaults, or the save raises on a board without the memory |
| Nvm.Fetch | bundle_v3.0_generic/cedargrove_scale/configuration.py:262-277 | fails exactly on an empty stored list (IndexError) and on a board without the memory (OSError, despite the guard); a marked store is returned after its marker and kept; otherwise the store is rewritten with the defaults and those are returned |
| Nvm.FetchFixed | bundle_v3.0_generic/cedargrove_scale/configuration.py:262-277 | corrected: a board without the memory yields the defaults and keeps no store; any other memory is fetched as written |
| Nvm.FetchUnguarded | archive/bundle_v2.0_pyportal/cedargrove_scale/configuration.py:45-57 | without the guard any failing read raises at once; an empty list raises IndexError; a marked list is returned after its marker |
| Nvm.FetchValid | bundle_v3.0_generic/cedargrove_scale/configuration.py:267-269 | a marked store is returned after its marker and not rewritten |
| Nvm.FetchInvalid | bundle_v3.0_generic/cedargrove_scale/configuration.py:265-277 | writable memory without a marked list (undecodable, or a list without the marker) is rewritten with the defaults, which the fetch returns |
| Nvm.FetchIdempotent | bundle_v3.0_generic/cedargrove_scale/configuration.py:262-277 | a second fetch finds what the first one returned and left |
| Nvm.FetchAfterWrite | bundle_v3.0_generic/cedargrove_scale/configuration.py:238-277 | after `write_settings(list)` on writable memory, a fetch returns exactly `list` |
| Nvm.SettingsSurviveRestart | bundle_v3.0_generic/cedargrove_scale/configuration.py:238-277 | written settings are fetched and decoded back unchanged |
| Nvm.UnreadableStore | bundle_v3.0_generic/cedargrove_scale/configuration.py:262-277 | a board without the memory raises OSError through the guarded fetch just as through the unguarded one; the two fetches differ exactly on undecodable memory |
| Nvm.GarbledStoreRepaired | bundle_v3.0_generic/cedargrove_scale/configuration.py:265-277 | where the guard does help: undecodable memory is rewritten with the defaults and they are returned, where the unguarded fetch raises |
| Nvm.UnreadableStoreFixed | code/cedargrove_scale/configuration.py:187-203 | with the corrected fetch, a board without the memory decodes to the defaults |
| SdCard.WriteAlarmTare | in-progress_bundle/cedargrove_scale/configuration.py:59-68 | with a card the file `/sd/alarm_tare.py` holds the list and the result is True; other files are kept; without a card nothing changes and the result is False |
| SdCard.ReadAlarmTare | in-progress_bundle/cedargrove_scale/configuration.py:45-57 | with no card the four defaults are returned |
| SdCard.ModulePath | in-progress_bundle/cedargrove_scale/configuration.py:50 | the file for a dotted module name: each dot becomes a directory separator and ".py" is appended |
| SdCard.ImportedPathIsNotWritten | in-progress_bundle/cedargrove_scale/configuration.py:50 | the dotted name `sd.alarm_tare.py` names the path `/sd/alarm_tare/py.py` (a submodule `py` of `sd.alarm_tare`), not the written file |
| SdCard.ModuleNameOfWrittenFile | in-progress_bundle/cedargrove_scale/configuration.py:50-64 | the module name `sd.alarm_tare` is exactly the file the writer creates |
| SdCard.ReadFrom | in-progress_bundle/cedargrove_scale/configuration.py:45-57 | with a card holding the module's file, its list is returned; otherwise the four defaults |
| SdCard.ReadMissesWrite | in-progress_bundle/cedargrove_scale/configuration.py:45-68 | as written, a read after a write on an otherwise empty card returns the defaults |
| SdCard.ReadMissesWriteExample | in-progress_bundle/cedargrove_scale/configuration.py:45-68 | a written 50.0 g first alarm is read back as the 19.4 g default |
| SdCard.ReadAlarmTareFixed | in-progress_bundle/cedargrove_scale/configuration.py:45-57 | importing `sd.alarm_tare` reads the written file when a card holds it, and the defaults without a card |
| SdCard.ReadAfterWriteFixed | in-progress_bundle/cedargrove_scale/configuration.py:45-68 | with the corrected import, a read after a write returns what was written |
| Buttons.NewPanel | v3.0_bundle_v7.1.1/cedargrove_scale/buttons.py:16-33 | the panel is built exactly when a touchscreen is present (RuntimeError otherwise), keeps the timeout as given, and lists the seven buttons in order |
| Buttons.SetTimeout | v3.0_bundle_v7.1.1/cedargrove_scale/buttons.py:227-236 | a timeout in [0, 10) is taken; any other is refused and the old one kept |
| Buttons.SetTimeoutKeepsRange | v3.0_bundle_v7.1.1/cedargrove_scale/buttons.py:227-236 | a timeout that starts in range stays in range |
| Buttons.ConstructorSkipsRange | v3.0_bundle_v7.1.1/cedargrove_scale/buttons.py:28 | the constructor accepts a 12.0 s timeout the setter would refuse |
| Buttons.Run | v3.0_bundle_v7.1.1/cedargrove_scale/buttons.py:249 | the hold loop runs for exactly the consecutive touched polls |
| Buttons.LastContaining | v3.0_bundle_v7.1.1/cedargrove_scale/buttons.py:243-247 | the reported button is the last one in list order whose outline holds the touch, and none exactly when no outline does |
| Buttons.ReadButtons | v3.0_bundle_v7.1.1/cedargrove_scale/buttons.py:238-257 | the reported name is the last containing button; no touch, or a touch outside every button, reports no name, hold time 0 and no tone; at most one timeout tone per matching button; with one match the hold time is the run of touched polls and the tone sounds iff that reaches the timeout |
| Buttons.Beeps | v3.0_bundle_v7.1.1/cedargrove_scale/buttons.py:250-254 | the timeout tone sounds once the counted polls reach ten times the timeout, and only after at least one poll |
| Buttons.IsHold | bundle_v3.0_generic/scale_code.py:276 | a press is a hold exactly when its polls exceed ten times the timeout; with a non-negative timeout a hold has at least one poll |
| Buttons.ToneAtTimeoutIsTap | bundle_v3.0_generic/scale_code.py:276 | with a 0.5 s timeout, a press held five polls sounds the tone (`>=`) yet is dispatched as a tap (`<=`) |
| Buttons.HoldSoundsTone | v3.0_bundle_v7.1.1/cedargrove_scale/buttons.py:252 | every hold has sounded the timeout tone |
| Buttons.HoldIsMonotone | bundle_v3.0_generic/scale_code.py:276 | holding longer never turns a hold into a tap |
| Alarms.Triggered | bundle_v3.0_generic/scale_code.py:230 | a disabled alarm never holds; an enabled one holds at and above its threshold (-0.0 counts as 0) and not below |
| Alarms.CheckAsWritten | bundle_v3.0_generic/scale_code.py:230-238 | alarm 1 holds iff enabled and mass >= the live threshold; alarm 2 iff enabled and mass >= the compiled default |
| Alarms.Check | bundle_v3.0_generic/scale_code.py:230-238 | each alarm holds iff enabled and its mass reaches its own live threshold |
| Alarms.AsWrittenAgreesWithDefault | bundle_v3.0_generic/scale_code.py:235 | the two checks agree whenever the live channel-2 threshold equals the default |
| Alarms.Channel2IgnoresLiveThreshold | bundle_v3.0_generic/scale_code.py:235 | a channel-2 threshold set to 25.0 g stays silent at 30.0 g as written |
| Alarms.InclusiveBoundary | bundle_v3.0_generic/scale_code.py:230 | a mass equal to the threshold raises the alarm; just below does not; a disabled alarm never does |
| Alarms.AlarmText | bundle_v3.0_generic/scale_code.py:240-250 | a message exists iff some alarm holds, and starts with "ALARM: " |
| Alarms.Status | bundle_v3.0_generic/scale_code.py:192-250 | an alarm shows its message; with no alarm the name returns, unless the previous frame was in alarm, when the old text stays |
| Alarms.ClearedAlarmLingersOneFrame | bundle_v3.0_generic/scale_code.py:192-251 | with no press handled in between, a cleared alarm's message stays for exactly one more frame, then the name returns |
| Alarms.ShippedTexts | v3.0_bundle_v8.0.0-beta.4/scale_code.py:296-305 | with the shipped names the messages are "ALARM: BEANS AND SHOTS", "ALARM: BEANS" and "ALARM: SHOTS" |
| Alarms.AlarmTextDistinguishes | bundle_v3.0_generic/scale_code.py:240-250 | different alarm pairs give different status text |
| Alarms.Upper | bundle_v3.0_generic/scale_code.py:240-250 | `.upper()` keeps the length and upper-cases each character in place |
| Dispatch.Toggle | bundle_v3.0_generic/scale_code.py:276-291 | a tap flips the pressed enable, keeps its mass's value, normalises a -0.0 tare on enabling, and changes no other setting |
| Dispatch.ToggleTwice | bundle_v3.0_generic/scale_code.py:276-291 | two taps restore the settings unless the tare was -0.0 |
| Dispatch.TapHold | bundle_v3.0_generic/scale_code.py:253-347 | reset restores only on a hold; zero replaces that channel's offset (nothing changes in v8); a tap toggles; a hold stores the shown mass; only tare and alarm presses persist; no other setting or offset changes |
| Dispatch.ToggleOnly | code/code.py:318-386 | zero re-zeroes, tare and alarm presses always toggle, reset and no press change nothing |
| Dispatch.ToggleOnlyIsAlwaysTap | bundle/code.py:433-501 | the toggle-only dispatch is the tap/hold dispatch with every press taken as a tap |
| Dispatch.Commit | bundle_v3.0_generic/scale_code.py:254-312 | a reset hold reloads the defaults; a tare or alarm press stores the settings so a fetch reads them back; both raise on a board without the memory; nothing else touches the store |
| Dispatch.DispatchKeepsStoreInSync | bundle_v3.0_generic/scale_code.py:253-347 | with grid masses, if the store agrees with the live settings before a press, the press succeeds and the store agrees after it |
| Dispatch.ResetTapIsNoOp | bundle_v3.0_generic/scale_code.py:254-255 | a tap on reset changes neither the state nor the store |
| Dispatch.StatusAfterPress | bundle_v3.0_generic/scale_code.py:253-347 | after the press handling the label is " " (set by `zero_channel`, line 95, or `flash_status`) or unchanged; no press and a reset tap leave it; a zero press blanks it |
| Dispatch.StoreTouchBlanksStatus | bundle_v3.0_generic/scale_code.py:253-347 | every press that restores or stores the settings blanks the label; one that touches neither the store nor an offset leaves it |
| Dispatch.CommitSd | bundle_v2.0/code.py:265-368 | a reset hold reloads the card's settings (failing as `read_settings` does); a press reports STORED or TEMPORARY from the write result |
| Dispatch.WriteResultOnlyChangesNotice | bundle_v2.0/code.py:324-330 | a failed card write keeps the new live settings; only the notice differs |
| Dispatch.ToggleCapture | PyPortal_Scale_v20/code/code.py:657-683 | a tare press flips the enable; enabling captures the filtered fresh gross; disabling clears the tare only when the revision does |
| Dispatch.V20Press | PyPortal_Scale_v20/code/code.py:640-683 | zero re-zeroes; tare 1 captures with ratio 1 and is not cleared; tare 2 captures with ratio 1 and is cleared; nothing else is handled |
| Dispatch.PyPortalPress | PyPortal_Scale/code/PyPortal_Scale_code.py:374-415 | zero re-zeroes; both tares capture with ratio 1; disabling keeps the mass |
| Dispatch.ClearDisabled | PyPortal_Scale/code/PyPortal_Scale_code.py:316-331 | the frame clears exactly the disabled tares and leaves everything else |
| Dispatch.V20PressFixed | PyPortal_Scale_v20/code/code.py:657-683 | each channel captures with its own ratio and either tare is cleared on disabling |
| Dispatch.V20FixedTareFollowsEnable | PyPortal_Scale_v20/code/code.py:610-683 | with the corrected press, enabling tares the present load to 0.0 and disabling makes the tare irrelevant |
| Dispatch.V20DisabledTare1StillSubtracted | PyPortal_Scale_v20/code/code.py:663-670 | as written, a disabled 6.4 g tare 1 still shows an empty pan as -6.4 g |
| Dispatch.V20Channel2CapturesWithRatio1 | PyPortal_Scale_v20/code/code.py:678 | as written, with ratios 0.02 and 0.01, enabling tare 2 over 1000 counts stores 20.0 g and shows -10.0 g |
| Dispatch.PyPortalChannel2CapturesWithRatio1 | PyPortal_Scale/code/PyPortal_Scale_code.py:413 | the same ratio slip in PyPortal_Scale |
| Dispatch.TapHoldFixed | bundle_v3.0_generic/scale_code.py:292-298 | a tare hold stores the gross mass under the cup; every other press is unchanged |
| Dispatch.TareHoldStoresTaredMass | bundle_v3.0_generic/scale_code.py:292-298 | as written, holding tare 1 over a 70.0 g cup under the 68.0 g tare stores 2.0 g, after which the cup shows 68.0 g |
| Dispatch.TareHoldZeroesDisplay | bundle_v3.0_generic/scale_code.py:292-298 | with the gross capture, the load present at the hold then shows 0.0 g |
| Dispatch.ClueRezero | Clue_Scale/code/clue_scale_code.py:210-230 | as written, button A/B leaves both zero offsets unchanged |
| Dispatch.ClueRezeroFixed | Clue_Scale/code/clue_scale_code.py:210-230 | the corrected re-zero replaces the pressed channel's offset only |
| Dispatch.ClueRezeroEffect | Clue_Scale/code/clue_scale_code.py:146-229 | for any no-load reading taken after the converter's calibration, the corrected re-zero shows 0.0 g; as written the cell shows 0.0 g when that reading equals the start-up zero and 1.0 g when it still differs from it by 2153 counts |
| ScaleLoop.Startup | bundle_v3.0_generic/scale_code.py:163-173 | offsets are 0 when debugging, else the zero readings; the settings then agree with the store; an empty store and a board without the memory raise; an unmarked store or undecodable memory gives the defaults; a marked one is used unchanged if it decodes |
| ScaleLoop.StartupFixed | code/cedargrove_scale/configuration.py:187-203 | corrected: a board without the memory starts from the defaults with no store; any other starts as written |
| ScaleLoop.StartupSeeded | code/code.py:210-229 | a store-less revision starts from the defaults |
| ScaleLoop.SeededIsFreshStore | code/code.py:218-229 | that is where a store-backed revision, with the corrected fetch, starts on a board without the memory |
| ScaleLoop.EnableIfNonzero | PyPortal_Scale_v20/code/code.py:557-597 | a setting is enabled iff its mass is nonzero (-0.0 counts as zero); a disabled one becomes +0.0, an enabled one keeps its mass |
| ScaleLoop.StartupV20 | PyPortal_Scale_v20/code/code.py:552-599 | each tare and alarm is enabled iff its configured mass is nonzero, and a disabled one is set to 0.0 |
| ScaleLoop.StartupV20IsGated | PyPortal_Scale_v20/code/code.py:552-625 | right after start-up the unconditional subtraction shows what the gated one shows |
| ScaleLoop.RunFrame | bundle_v3.0_generic/scale_code.py:185-251 | one frame on the 0.1 g grid: both masses never -0.0 and within 0.05 g of the exact values; alarms as written; the name when calm; an "ALARM: " message when not |
| ScaleLoop.RunFrameFixed | bundle_v3.0_generic/scale_code.py:185-251 | the same grid frame with both alarms on their live thresholds |
| ScaleLoop.FramesAgreeOnDefault | bundle_v3.0_generic/scale_code.py:235 | the two frames agree while the channel-2 threshold is the default |
| ScaleLoop.PressCutsLingeringAlarm | bundle_v3.0_generic/scale_code.py:192-347 | after an alarm frame, the next calm frame shows the message again only without a press; after a zero, tare or alarm press it shows " "; the name returns one frame later either way |
| ScaleLoop.HoldAlarmThenAlarm | bundle_v3.0_generic/scale_code.py:320-330 | with live thresholds, holding an enabled alarm button makes that alarm hold on the next frame with the same load |
| ScaleLoop.HoldAlarm2StaysSilent | bundle_v3.0_generic/scale_code.py:235 | as written, after a hold on alarm 2 at 30.0 g the next frame's alarm 2 stays silent |

## Left out

- Graphics, fonts, dial hands, icons, colours, screenshots, tones and sleeps: they do not affect the modelled state. Only the count of timeout tones is kept. Of the status label only its final text per frame is kept: a flashed message such as "STORED" is transient, and the " " that `zero_channel` and `flash_status` leave behind is Dispatch.StatusAfterPress.
- The converter: its reads, calibration and `available` flag are the poll stream and zero readings given as parameters. Older revisions test `nau7802.available` without calling it; if that is a bound method it is always truthy. The model takes the flag at face value.
- Sampling.ReadBlocking: requires the poll stream to hold at least `samples` ready readings. The source waits forever otherwise, and that liveness is not modelled.
- Sampling.ReadSkipping: requires at least `samples` polls, one per loop pass. The stream is a model input.
- Float arithmetic: `counts * ratio` is exact real arithmetic here, and rounding is half-to-even on the exact value. Binary floating-point artefacts near a tie are not modelled.
- Dispatch.ClueRezeroEffect: the converter's `calibrate('OFFSET')` inside `zero_channel` is not modelled; the lemma takes the no-load reading after it as a parameter, so how much drift the chip itself absorbs (and hence whether the discarded zero is visible) is left open.
- Buttons.ReadButtons: the hold time is whole ticks of 0.1 s. The float accumulation of `+= 0.1` is not modelled. With several matching buttons only the name and a bound on the tones are stated, because the polls are shared between the matches.
- Masses read from the store or defaults are assumed on the 0.1 g grid. Every shipped default is, so `round(x, 1)` in `read_settings` is the identity there.
- Alarms.Upper: only ASCII letters are upper-cased. The shipped names are ASCII.
- Nvm.WriteSettings: the nonvolatile-memory helper library is not part of this model. Where there is memory, its save and its read of a saved list are taken as exact. A read of undecodable bytes raises, and on a board without the memory both raise. Which exception is raised is not modelled; it is named OSError.
- ScaleLoop.StartupFixed: only the fetch is corrected. A later tare or alarm press on a board without the memory still raises in `write_settings` (Dispatch.Commit).
- Mass.Minus: the subtraction is taken on the 0.1 g grid. In binary floating point `round(x, 1) - tare` can miss the grid by a rounding error (87.3 - 68.0 is 19.299999999999997), and the model does not carry that error.
- Channel.EnabledTareShifts: the shift by exactly the tare holds on the grid; the float result can differ from it by the rounding error of the subtraction.
- ScaleLoop.RunFrame: with an enabled tare, the alarm's inclusive `>=` can fall the other way in floats when the net mass equals the threshold on the grid. For example, 187957 counts under a 68.0 g tare with a 19.3 g alarm raises alarm 1 here; in doubles the net mass is 19.299999999999997 and the source stays silent. With no tare, or a subtraction that is exact in binary, the frame is as stated.
- ScaleLoop.RunFrameFixed: the same tared-boundary gap as ScaleLoop.RunFrame.
- Dispatch.DispatchKeepsStoreInSync: a hold stores the shown float as it is, and `read_settings` rounds it to 0.1 g on the next start. With an off-grid tared mass, the live setting and the one read back differ by that rounding error. On the grid they agree as stated.
- Buttons.Beeps: the hold time is counted in whole polls. The source's `hold_time += 0.1` drifts in floats, so at an exact multiple of the timeout the tone can come one poll later. With a 1.0 s timeout, ten additions give 0.9999999999999999.
- Buttons.ToneAtTimeoutIsTap: it is stated for a 0.5 s timeout, where five additions of 0.1 are exact in binary. At the shipped 1.0 s timeout the tone comes one poll after the timeout, and the press is a hold by then.
- Dispatch.V20Press: takes the one pressed name. The source loops over every button whose outline holds the touch (PyPortal_Scale_v20/code/code.py:638-640); the shipped outlines do not overlap, so at most one matches.
- Dispatch.PyPortalPress: the same single-press reading as Dispatch.V20Press.
- bundle_v2.0's SD-card settings class (`read_settings`, `write_settings`, `reset_settings`) is not part of this model. Dispatch.CommitSd takes what it reloads and whether the write succeeded as parameters.
- SdCard.ReadFrom: a module that has been imported once is cached by Python and not re-read. The model reads the file each time.
- The interactive calibrator, the failover code, display selection and the orientation sensor: not part of the measurement-and-control core.

## Findings

| source | as written | input that shows it | evidently intended | confidence | as-written member | corrected member |
|---|---|---|---|---|---|---|
| bundle_v3.0_generic/scale_code.py:235 | channel 2's alarm compares with the compiled `ALARM_2_MASS_GR`, so a threshold set by a hold or stored in NVM is ignored | alarm 2 set to 30.0 g by a hold at 30.0 g; the next frame at 30.0 g stays silent under the 40.0 g default | compare with the live `alarm_2_mass_gr`, as channel 1 does | not executed | ScaleLoop.HoldAlarm2StaysSilent | ScaleLoop.HoldAlarmThenAlarm |
| PyPortal_Scale_v20/code/code.py:678 | tare 2 is captured with `CALIB_RATIO_1` | ratios 0.02 and 0.01, 1000 net counts: tare 2 becomes 20.0 g and the display shows -10.0 g | capture with `CALIB_RATIO_2` | not executed | Dispatch.V20Channel2CapturesWithRatio1 | Dispatch.V20FixedTareFollowsEnable |
| PyPortal_Scale/code/PyPortal_Scale_code.py:413 | tare 2 is captured with `CALIB_RATIO_1` | as above: 20.0 g stored, -10.0 g shown | capture with `CALIB_RATIO_2` | not executed | Dispatch.PyPortalChannel2CapturesWithRatio1 | Dispatch.V20FixedTareFollowsEnable |
| PyPortal_Scale_v20/code/code.py:663-670 | disabling tare 1 leaves its mass, and the frame subtracts the tare unconditionally | tare 1 at 6.4 g, disabled: an empty pan shows -6.4 g | clear tare 1 to 0.0 on disable, as tare 2 is | not executed | Dispatch.V20DisabledTare1StillSubtracted | Dispatch.V20FixedTareFollowsEnable |
| Clue_Scale/code/clue_scale_code.py:216 | button A/B stores the new zero in `zero`, which the frame never reads | a no-load reading after the re-zero that still differs from the start-up zero by 2153 counts: the unloaded cell keeps showing 1.0 g | assign `chan_1_zero` / `chan_2_zero` | not executed | Dispatch.ClueRezeroEffect | Dispatch.ClueRezeroFixed |
| in-progress_bundle/cedargrove_scale/configuration.py:50 | `import sd.alarm_tare.py` asks for a submodule `py` of `sd.alarm_tare`. Since `/sd/alarm_tare.py` is a plain module and not a package, the import fails, and the `except` returns the defaults. The file the writer creates is never read | write 50.0 g as alarm 1, then read: 19.4 g, the default | `import sd.alarm_tare` | not executed | SdCard.ReadMissesWrite | SdCard.ReadAfterWriteFixed |
| bundle_v3.0_generic/scale_code.py:292-298 | a tare hold stores the shown mass, which is already net of the active tare | 70.0 g cup under the 68.0 g tare: the hold stores 2.0 g, and the cup then shows 68.0 g | store the gross mass, so the held load shows 0.0 g | not executed | Dispatch.TareHoldStoresTaredMass | Dispatch.TareHoldZeroesDisplay |
| bundle_v3.0_generic/cedargrove_scale/configuration.py:262-277 | only the first `read_data` is guarded; on a board without the memory the guard substitutes "x", then `restore_defaults` saves and the final `read_data` reads again, both unguarded, so `fetch_settings` raises. The guard does rescue memory that exists but does not decode (Nvm.GarbledStoreRepaired) | a board without non-volatile memory: start-up raises instead of running on the defaults | use the defaults and leave the store alone, as the warning "Settings will not be stored" in code/cedargrove_scale/configuration.py:194 says | not executed | Nvm.UnreadableStore | Nvm.UnreadableStoreFixed |
