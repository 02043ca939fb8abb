# ADM1 reaction network and preset store in Dafny

This project models two parts of a Python anaerobic-digestion simulator built on ADM1 (the IWA Anaerobic Digestion Model No. 1):

- **The reaction network** (`adm1_model.dfy`, module `Adm1Model`). It covers the 29 named state variables and their default initial concentrations. It covers the name/index lookups. It covers the rate laws:
  - Monod uptake;
  - non-competitive hydrogen and ammonia inhibition;
  - the rate function, which maps a state vector to its rate vector.

  The rate function has seven uptake processes. The iron/EDTA sub-network is added on top of them: reversible Fe–EDTA complexation and FeS precipitation.
  - The two routines that fill a zero vector and update its entries are methods. They build a sequence by successive updates, in the order the Python code writes them.
  - Each method is proved equal to a per-entry specification function: `MetalRates`, `Rates`.
  - The properties of the rate vector are lemmas about those functions. They cover:
    - signs;
    - growth equal to yield times uptake;
    - the C4 split;
    - entries that are never written;
    - conservation of EDTA and of iron;
    - the upper bound from the maximum uptake rate.
  - The arithmetic is over `real`.
- **The preset store** (`parameter_manager.dfy`, module `ParameterStore`). It holds a dictionary of named presets read from a JSON configuration file, plus an optional selected preset.
  - It is a class with a `map` field, a `seq` of keys in insertion order (the dictionary's key order), and an `Option` field.
  - Loading inserts every entry with a `while` loop. It is proved against the functions `Inserted` and `InsertionOrder`, whose properties are lemmas.
  - The getters are functions of the state.
  - What reading the file produced is a parameter of each load (`PresetSource`).

`wrappers.dfy` holds the `Option` and `Result` types.

The code is modelled as written. The growth terms of the last four uptake processes land one index past the degrader they belong to. `BiochemicalReactions` and `Rates` keep that behaviour. The corrected vector `IntendedRates` sits beside them; see "Findings". The key of the kinetic parameters in a preset summary is `"parameters"`, as the code writes it; the lookup inside the preset uses `"kinetic_parameters"`.

## Model

| member | source | states |
|---|---|---|
| Adm1Model.DefaultParameters | src/core/adm1_model.py:11-58 | the default constants are all strictly positive; the sampled fields carry the documented defaults (k_m_su 30, K_S_h2 7e-6, KI_nh3 0.0018, k_edta_fe 1e5) |
| Adm1Model.InitialConditions | src/core/adm1_model.py:116-157 | one initial value per state variable (29), all non-negative, with a non-empty valerate + butyrate pool |
| Adm1Model.StateVariablesDistinct | src/core/adm1_model.py:71-108 | the 29 state variable names are pairwise distinct |
| Adm1Model.VariableIndex | src/core/adm1_model.py:113-114 | the name-to-index dictionary maps every name to its position and holds no other key |
| Adm1Model.GetVariableIndex | src/core/adm1_model.py:265-267 | the result is -1 exactly for names that are not state variables; otherwise it is the position of the name |
| Adm1Model.GetVariableName | src/core/adm1_model.py:269-273 | in range, the name at that position; the result is "UNKNOWN" exactly when the index is out of range |
| Adm1Model.NameIndexRoundTrip | src/core/adm1_model.py:265-273 | looking up the index of the name at a valid index gives that index back |
| Adm1Model.MetalIndicesByName | src/core/adm1_model.py:243-247 | the four iron species looked up by name sit at indices 25..28 |
| Adm1Model.IronIndices | src/core/adm1_model.py:243-247 | the by-name lookups of the iron routine return indices 25, 26, 27, 28 |
| Adm1Model.Monod | src/core/adm1_model.py:226-229 | the Monod law k_m·S/(K_S+S)·X; its range and zeros are stated by `MonodBounds` |
| Adm1Model.HydrogenInhibition | src/core/adm1_model.py:231-233 | the factor 1/(1+S/K_I); its range by `InhibitionRange`, its monotonicity by `InhibitionStrictlyDecreasing` |
| Adm1Model.MonodBounds | src/core/adm1_model.py:226-229 | Monod uptake lies in [0, k_m·X], and is zero exactly when substrate or biomass is zero |
| Adm1Model.InhibitionRange | src/core/adm1_model.py:231-233 | the inhibition factor lies in (0, 1] and equals 1 exactly when no inhibitor is present |
| Adm1Model.InhibitionStrictlyDecreasing | src/core/adm1_model.py:231-233 | more inhibitor gives a strictly smaller factor |
| Adm1Model.AmmoniaInhibition | src/core/adm1_model.py:235-237 | ammonia inhibition is the same law as hydrogen inhibition, with constant KI_nh3 |
| Adm1Model.SugarUptake | src/core/adm1_model.py:173-174 | process 1, uninhibited Monod uptake of S_su by X_su; non-negative by `UptakesNonNegative`, bounded by `UninhibitedBoundedByMaximum` |
| Adm1Model.AminoAcidUptake | src/core/adm1_model.py:179-180 | process 2, uninhibited Monod uptake of S_aa by X_aa; non-negative by `UptakesNonNegative`, bounded by `UninhibitedBoundedByMaximum` |
| Adm1Model.FattyAcidUptake | src/core/adm1_model.py:185-187 | process 3, Monod uptake of S_fa by X_fa times hydrogen inhibition with KI_h2_fa; non-negative by `UptakesNonNegative`, bounded by `InhibitedBoundedByMaximum` |
| Adm1Model.C4Uptake | src/core/adm1_model.py:192-195 | process 4, Monod uptake of the pool S_va + S_bu by X_c4 times hydrogen inhibition with KI_h2_c4; its split is stated by `C4Split` |
| Adm1Model.PropionateUptake | src/core/adm1_model.py:201-203 | process 5, Monod uptake of S_pro by X_pro times hydrogen inhibition with KI_h2_pro; non-negative by `UptakesNonNegative`, bounded by `InhibitedBoundedByMaximum` |
| Adm1Model.AcetateUptake | src/core/adm1_model.py:208-210 | process 6, Monod uptake of S_ac by X_ac times ammonia inhibition of S_IN; non-negative by `UptakesNonNegative`, bounded by `InhibitedBoundedByMaximum` |
| Adm1Model.HydrogenUptake | src/core/adm1_model.py:215-216 | process 7, uninhibited Monod uptake of S_h2 by X_h2; non-negative by `UptakesNonNegative`, bounded by `UninhibitedBoundedByMaximum` |
| Adm1Model.UptakesNonNegative | src/core/adm1_model.py:172-218 | all seven process rates are non-negative on a non-negative state |
| Adm1Model.MetalRates | src/core/adm1_model.py:239-263 | the iron vector has the length of the state; it is zero outside the four iron entries; it conserves total EDTA and total iron; its FeEDTA and FeS entries are the complexation and precipitation rates |
| Adm1Model.ComplexationRate | src/core/adm1_model.py:250-251 | the net Fe–EDTA complexation rate; `MetalRates` moves it from Fe2+ and EDTA into FeEDTA |
| Adm1Model.PrecipitationRate | src/core/adm1_model.py:259 | the FeS precipitation rate; `MetalRates` moves it from Fe2+ into FeS |
| Adm1Model.MetalReactions | src/core/adm1_model.py:239-263 | filling a zero vector by the three assignments and the two in-place updates yields `MetalRates` |
| Adm1Model.UptakeEntriesInTurn | src/core/adm1_model.py:170-218 | writing the fifteen uptake entries one after another into a zero vector yields the entry-wise definition |
| Adm1Model.BiochemicalReactions | src/core/adm1_model.py:159-224 | the rate vector equals `Rates(p, y)`; it has the length of `y` and does not depend on `t` |
| Adm1Model.Rates | src/core/adm1_model.py:159-224 | the rate vector has the length of the state; `BiochemicalReactions` is proved equal to it, and `RateSigns`, `GrowthIsYieldTimesUptake`, `C4Split`, `UnwrittenEntriesZero`, `MetalAddsOnlyIronEntries` and `UptakeBoundedByMaximum` state its properties |
| Adm1Model.InitialConditionsDefined | src/core/adm1_model.py:116-157 | the default initial state lies in the domain of the rate function |
| Adm1Model.RateSigns | src/core/adm1_model.py:172-218 | substrate entries 0..7 are never positive; the seven growth entries are never negative |
| Adm1Model.EntryGrowthIsYieldTimesUptake | src/core/adm1_model.py:175-218 | for any process rates, each written growth entry is minus the yield times its substrate entry |
| Adm1Model.GrowthIsYieldTimesUptake | src/core/adm1_model.py:175-218 | in the rate vector, [15] = -Y_su·[0], [16] = -Y_aa·[1], [17] = -Y_fa·[2], [20] = -0.08·[5], [21] = -Y_ac·[6], [22] = -Y_h2·[7] |
| Adm1Model.C4Split | src/core/adm1_model.py:191-198 | the valerate and butyrate entries add up to minus the C4 uptake and are in the ratio S_va : S_bu; entry 19 is 0.1 times the C4 uptake |
| Adm1Model.UnwrittenEntriesZero | src/core/adm1_model.py:170-222 | entries 8..14, 18, 23, 24 and any entry past 28 are always zero: no product is formed and X_c4 never grows |
| Adm1Model.MetalAddsOnlyIronEntries | src/core/adm1_model.py:220-222 | adding the iron vector changes only entries 25..28, where the rate is exactly the iron vector's |
| Adm1Model.UninhibitedBoundedByMaximum | src/core/adm1_model.py:173-182 | the sugar and amino-acid rates, and the hydrogen rate of :215-216, never exceed their degraders' maximum rate k_m·X |
| Adm1Model.InhibitedBelowMaximum | src/core/adm1_model.py:226-233 | a Monod rate times a hydrogen-type inhibition factor never exceeds k_m·X |
| Adm1Model.InhibitedBoundedByMaximum | src/core/adm1_model.py:184-212 | the fatty-acid, C4, propionate and acetate rates, inhibited by hydrogen or ammonia, never exceed their degraders' maximum rate k_m·X |
| Adm1Model.UptakeBoundedByMaximum | src/core/adm1_model.py:172-218 | in the rate vector, each of the seven substrates (valerate and butyrate together) is consumed no faster than its degraders' maximum rate k_m·X |
| Adm1Model.IntendedEntryGrowth | src/core/adm1_model.py:191-218 | with growth credited to the own degrader, the C4, propionate, acetate and hydrogen degraders grow by yield times own uptake, and X_I is untouched |
| Adm1Model.IntendedGrowthOnOwnDegrader | src/core/adm1_model.py:191-218 | the corrected rate vector has [18] = -0.1·([3]+[4]), [19] = -0.08·[5], [20] = -Y_ac·[6], [21] = -Y_h2·[7], [22] = 0 |
| Adm1Model.IntendedAgreesOutsideGrowth | src/core/adm1_model.py:159-224 | the corrected and the written rate vectors agree outside entries 18..22 |
| Adm1Model.GrowthOffByOneAtDefaults | src/core/adm1_model.py:191-218 | at the defaults the C4 uptake is positive, yet as written dX_c4/dt = 0 and dX_I/dt > 0; the corrected dX_c4/dt is positive |
| ParameterStore.Lookup | src/parameters/parameter_manager.py:119-120 | a key is found in a JSON object exactly when the object has a member of that name |
| ParameterStore.Truthy | src/parameters/parameter_manager.py:114-115 | the truth value of preset data in `if not preset` (and of the selected name at :104): null, false, zero, and empty strings, arrays and objects are false; `GetPresetInfo` states its effect |
| ParameterStore.Get | src/parameters/parameter_manager.py:119-120 | `get` with a default on a JSON object: the default exactly when no member has the key, otherwise the value of the last member with that key |
| ParameterStore.Inserted | src/parameters/parameter_manager.py:80-81 | the presets after `presets[name] = data` for each entry in turn; its keys by `InsertedKeys`, its values by `InsertedKeepsOthers`, `InsertedLastWins`, `InsertedOverrides` and `InsertedIdempotent` |
| ParameterStore.InsertionOrder | src/parameters/parameter_manager.py:80-81 | the dictionary's key order after those insertions: a new name goes to the end, an overwritten one keeps its place; its properties by `InsertionOrderProperties` |
| ParameterStore.InsertedKeys | src/parameters/parameter_manager.py:80-81 | after the insertion loop the keys are the old keys plus every inserted name |
| ParameterStore.InsertedKeepsOthers | src/parameters/parameter_manager.py:80-81 | a preset not named in the file keeps its old data |
| ParameterStore.InsertedLastWins | src/parameters/parameter_manager.py:80-81 | the last entry for a name decides the stored data |
| ParameterStore.InsertedOverrides | src/parameters/parameter_manager.py:80-81 | for a name in the file, the stored data does not depend on what was loaded before |
| ParameterStore.InsertedIdempotent | src/parameters/parameter_manager.py:69-89 | loading the same file a second time leaves the presets as they are |
| ParameterStore.InsertionOrderProperties | src/parameters/parameter_manager.py:80-81 | the key order keeps the old order as a prefix, has no repetitions, and lists exactly the old and the inserted names |
| ParameterStore.Entries | src/parameters/parameter_manager.py:76-80 | there are entries to iterate exactly when the file was read and decoded to a JSON object |
| ParameterStore.ParameterManager.constructor | src/parameters/parameter_manager.py:58-67 | a new manager has no selection; its presets and its key order are exactly what the first load inserted into an empty dictionary, in file order; with nothing loaded both are empty |
| ParameterStore.ParameterManager.LoadPresets | src/parameters/parameter_manager.py:69-89 | the result is true exactly when the file is a JSON object with at least one entry; the entries are inserted over the existing presets in file order; a missing, unreadable or non-object file changes nothing; the selection is kept |
| ParameterStore.ParameterManager.GetPreset | src/parameters/parameter_manager.py:91-93 | the stored data for a known name, nothing for an unknown one |
| ParameterStore.ParameterManager.SetCurrentPreset | src/parameters/parameter_manager.py:95-100 | the result is true exactly for a known name, which becomes the selection; otherwise the selection is unchanged; the presets never change; after a successful selection of a non-empty name, the current parameters are that preset's data |
| ParameterStore.ParameterManager.GetCurrentParameters | src/parameters/parameter_manager.py:102-106 | `{}` when nothing is selected or the selected name is empty; otherwise the selected preset's data |
| ParameterStore.ParameterManager.ListAvailablePresets | src/parameters/parameter_manager.py:108-110 | the preset names without repetition, exactly the keys of the store, in insertion order |
| ParameterStore.ParameterManager.SummaryMembers | src/parameters/parameter_manager.py:117-121 | a summary object has exactly the members name, description and parameters, holding the given values |
| ParameterStore.ParameterManager.GetPresetInfo | src/parameters/parameter_manager.py:112-121 | `{}` for an unknown or falsy preset; failure for truthy data that is not an object; otherwise name, description (default "") and the preset's kinetic_parameters (default `{}`) under "parameters" |

## Left out

- Numerical integration (the SciPy-based ODE solver), plotting, the GUI, console output, and the repository's repair and diagnostic scripts are not part of this model.
- Floating point is not modelled; all arithmetic is over exact reals. At S_va + S_bu = 0 the code computes 0/0, which NumPy turns into NaN with a warning. The model excludes that input instead of propagating NaN.
- BiochemicalReactions: requires a non-negative state of at least 29 entries, strictly positive constants and a positive C4 pool (`RatesDefined`). The code accepts any array; on other inputs it can divide by zero or index out of range.
- Monod: requires K_S > 0 and S >= 0, and HydrogenInhibition requires K_I > 0 and S >= 0, so that the denominators are non-zero.
- MetalReactions: the iron vector is a sequence built by successive updates, not a NumPy array updated in place. Both vectors are fresh locals in the code, so no aliasing is lost.
- BiochemicalReactions: the in-place `+=` of the iron vector is modelled as an element-wise sum into a new sequence.
- The model object's constructor is not modelled. Its `parameters or ADM1Parameters()` default corresponds to passing `DefaultParameters()`. The parameter record is passed explicitly to every function. Nothing in the model object changes after construction, so it is not a class.
- The hydrolysis constants are carried in `Parameters` but unused, as in the code. The rate function has no disintegration or hydrolysis process.
- Preset store: resolving the configuration path, checking that the file exists, opening and decoding it, and logging are abstracted as the `PresetSource` handed to each load:
  - `Missing`: the file does not exist.
  - `Unreadable`: any exception while opening or decoding it.
  - `Document`: the decoded value.
- The `KineticParameters` and `MetalParameters` records of the preset-store file are never used by the manager and are not modelled. No link exists from the selected preset to the kinetics.
- JSON numbers are reals; integers and floats are not distinguished.
- The presets returned by the getters are values. The code returns the stored dictionaries themselves, so a caller's mutation of a returned preset would change the store; that aliasing is not modelled.
- The module's self-test (`test_function` and the `__main__` blocks) prints and is not modelled.

## Findings

| source | as written | input that shows it | evidently intended | confidence | as-written member | corrected member |
|---|---|---|---|---|---|---|
| src/core/adm1_model.py:198-218 | the growth terms of the C4, propionate, acetate and hydrogen processes are written to indices 19, 20, 21, 22 (X_pro, X_ac, X_h2, X_I), one past the degrader each comment names | default constants and initial conditions: the C4 uptake is positive, yet dX_c4/dt = 0 while dX_I/dt > 0 | growth credited to X_c4, X_pro, X_ac, X_h2 (indices 18..21), with X_I untouched | high (the comments name the degraders; not executed) | Adm1Model.GrowthOffByOneAtDefaults | Adm1Model.IntendedGrowthOnOwnDegrader |
