# QC Lab core in Dafny

This project models the numerical core of QC Lab, a Python package for
quantum–classical dynamics. It covers three files.

**qc_lab/ingredients.py** holds the "ingredients" that models are built from:
- the canonical transform between the complex classical coordinate `z` and
  the position/momentum pair `(q, p)`;
- the two wrappers that vectorize an ingredient over a batch of
  trajectories and turn a dense output into a sparse `(inds, mels, shape)`
  triple;
- the two-level and nearest-neighbour-lattice quantum Hamiltonians, the
  latter with its `h_q_mat` cache;
- the diagonal linear quantum–classical coupling and the sparse cache of
  its gradient;
- the surface-hopping rescaling functions of the harmonic oscillator and
  the free particle;
- the per-seed loops of the four initial-condition samplers.

**qc_lab/data.py** holds the `Data` accumulator. It records normalised,
trajectory-summed outputs, merges two accumulators into their weighted
average, and saves and loads a nested dictionary through an HDF5 file.

**qc_lab/constants.py** holds the `Constants` object. Assigning a constant
notifies an update function, with a guard against re-entrancy.

## Modules

| File | Module | Contents |
|---|---|---|
| `wrappers.dfy` | `Wrappers` | `Option`, a map lookup with a default, and a constant sequence |
| `numbers.dfy` | `Numbers` | Exact complex numbers; square roots given as a function parameter with the square-root property; left-to-right sums |
| `canonical.dfy` | `Canonical` | `z_to_qp` / `qp_to_z`, per mode and per vector, with both round trips |
| `tensors.dfy` | `Tensors` | Row-major dense tensors; `np.where` as the sparse triple; the dense/sparse round trip; `make_ingredient_sparse` |
| `vectorize.dfy` | `Vectorize` | `vectorize_ingredient` as a method over keyword-argument maps |
| `hamiltonians.dfy` | `Hamiltonians` | The Hamiltonians as functions, the source's fill loops as methods on arrays, and a `Model` class holding the two caches |
| `hop.dfy` | `Hop` | The shared quadratic solver and both hop functions |
| `samplers.dfy` | `Samplers` | The global random generator as a class, the shared sampler loop, the four samplers' distributions |
| `data.dfy` | `Aggregation` | Recording and merging as functions with their algebra, the source's loops as methods, and the `Data` class |
| `persistence.dfy` | `Persistence` | `_recursive_save` / `_recursive_load` on a file modelled as a path-to-dataset map, with the save/load round trip |
| `constants.dfy` | `ChangeNotifier` | `__setattr__` as a state function with its notification properties, and the `Constants` class |

Real numbers are exact reals (`real`); integers are unbounded. Where the
source follows a loop, the model is a method with that loop. Its contract ties
the result to a specification function, and the properties are proved as
lemmas about that function.

## Model

| member | source | states |
|---|---|---|
| Canonical.ZToQp | qc_lab/ingredients.py:12-20 | With `s = sqrt(m h / 2)`: position times `s` is `Re z`, and momentum is `2 s Im z` |
| Canonical.QpToZ | qc_lab/ingredients.py:23-30 | `Re z` is `s q`, and `Im z` times `2 s` is `p` |
| Canonical.RoundTripZ | qc_lab/ingredients.py:12-30 | `qp_to_z(z_to_qp(z)) == z` for every `z` of a mode with `m h > 0` |
| Canonical.RoundTripQp | qc_lab/ingredients.py:12-30 | `z_to_qp(qp_to_z(q, p)) == (q, p)` |
| Canonical.RoundTripZVec | qc_lab/ingredients.py:12-30 | The vector round trip, mode by mode |
| Tensors.RavelUnravel | qc_lab/ingredients.py:43-45 | Row-major offset of the multi-index of offset `f` is `f` |
| Tensors.UnravelRavel | qc_lab/ingredients.py:43-45 | The multi-index of the offset of an in-bounds index is that index (offsets are injective) |
| Tensors.SparsifyValues | qc_lab/ingredients.py:43-44 | Every stored value is non-zero and equals the dense entry at its indices |
| Tensors.SparsifyOrdered | qc_lab/ingredients.py:43 | Stored entries come in strictly increasing row-major order, as `np.where` lists them |
| Tensors.SparsifyComplete | qc_lab/ingredients.py:43 | Every non-zero dense entry is stored |
| Tensors.SparseRoundTrip | qc_lab/ingredients.py:43-45 | Zero-filling the shape and scattering the values at the indices gives back the dense tensor |
| Tensors.MakeIngredientSparse | qc_lab/ingredients.py:33-48 | The wrapped ingredient returns a well-formed triple that densifies to the original ingredient's output, for every argument |
| Vectorize.RowCount | qc_lab/ingredients.py:61-64 | `batch_size` if given (0 rows when negative), otherwise the number of seeds |
| Vectorize.RowKwargs | qc_lab/ingredients.py:68-73 | Row `n` has the same keys; arrays are indexed at `n`; other values are passed through |
| Vectorize.SliceRow | qc_lab/ingredients.py:68-73 | The inner loop builds exactly row `n`'s keyword arguments |
| Vectorize.VectorizedIngredient | qc_lab/ingredients.py:59-81 | One output per row; output `n` is the ingredient applied to row `n`'s arguments |
| Vectorize.ExtraRowsIgnored | qc_lab/ingredients.py:67-71 | Arguments that agree on the first `batch_size` rows give the same output |
| Hamiltonians.TwoLevelHermitian | qc_lab/ingredients.py:200-208 | The slice `[[a, c+id], [c-id, b]]` is Hermitian, with `c + i d` above the diagonal |
| Hamiltonians.TwoLevelHq | qc_lab/ingredients.py:196-208 | `batch_size` slices, each `[[a, c+id], [c-id, b]]`, with the constants read through `get` |
| Hamiltonians.TwoLevelDefaults | qc_lab/ingredients.py:201-208 | With none of the four constants set, every slice is zero |
| Hamiltonians.LatticeMatrix | qc_lab/ingredients.py:234-242 | An `n`-by-`n` matrix whose entries are those of the accumulated fill |
| Hamiltonians.LatticeSparsity | qc_lab/ingredients.py:234-242 | Non-zero entries lie only on the first off-diagonals or, when periodic, in the two corners |
| Hamiltonians.LatticeBonds | qc_lab/ingredients.py:236-242 | From three sites on: `-t` above the diagonal, `conj(-t)` below, and the same in the corners when periodic |
| Hamiltonians.LatticeTwoSitePeriodic | qc_lab/ingredients.py:236-242 | Two periodic sites: the `+=` writes make the upper bond `-2t` and the lower bond `-3 conj(t)` |
| Hamiltonians.LatticeHermitian | qc_lab/ingredients.py:234-242 | Hermitian if and only if not (periodic, two sites, `t != 0`) |
| Hamiltonians.LatticeOpen | qc_lab/ingredients.py:236-238 | Without periodic boundaries, the matrix is the band the hopping loop leaves |
| Hamiltonians.LatticePeriodic | qc_lab/ingredients.py:240-242 | With periodic boundaries, the band plus the two corner `+=` writes, the second reading the first |
| Hamiltonians.AddBond | qc_lab/ingredients.py:237-238 | One pass of the hopping loop moves the array from the band of `n` bonds to that of `n + 1` |
| Hamiltonians.AddCorners | qc_lab/ingredients.py:241-242 | The two corner writes add `-t` and then the conjugate of the new upper corner; nothing else changes |
| Hamiltonians.LatticeFill | qc_lab/ingredients.py:234-242 | The filled `N x N` array holds the lattice Hamiltonian |
| Hamiltonians.HoppingLoop | qc_lab/ingredients.py:236-238 | After the loop over `n < N - 1` the zeroed array holds `-t` above and `conj(-t)` below the diagonal, zero elsewhere |
| Hamiltonians.PeriodicCorrection | qc_lab/ingredients.py:240-242 | Adding the two corner bonds to the full band gives the periodic lattice, every other entry unchanged |
| Hamiltonians.Model.constructor | qc_lab/ingredients.py:230-233 | A model starts with both caches empty |
| Hamiltonians.Model.NearestNeighborLatticeHq | qc_lab/ingredients.py:212-246 | On a hit, returns the cached matrix and changes nothing. On a miss, returns `batch_size` copies of the lattice matrix, caches them, and leaves the gradient cache alone |
| Hamiltonians.CouplingTerm | qc_lab/ingredients.py:260-262 | `gamma (z + conj z)` is the real number `2 gamma Re z` |
| Hamiltonians.CouplingDiagonalReal | qc_lab/ingredients.py:257-262 | Each accumulated diagonal entry is real |
| Hamiltonians.CouplingMatrix | qc_lab/ingredients.py:256-263 | Each slice is square of size `num_sites` |
| Hamiltonians.CouplingEntryMirror | qc_lab/ingredients.py:256-263 | Mirror entries of a slice are conjugate |
| Hamiltonians.CouplingDiagonal | qc_lab/ingredients.py:256-263 | Off-diagonal entries are zero |
| Hamiltonians.CouplingHermitian | qc_lab/ingredients.py:256-263 | Every slice is Hermitian |
| Hamiltonians.DiagonalLinearHQcJit | qc_lab/ingredients.py:250-263 | The triple loop fills a `batch x ns x ns` array with the coupling matrix of each slice |
| Hamiltonians.DiagonalLinearHQc | qc_lab/ingredients.py:266-289 | The batch size is the given one (equal to `len(z)`) or `len(z)`; the result is the jit result |
| Hamiltonians.GradientDense | qc_lab/ingredients.py:316-325 | A valid tensor of shape `(batch, ncc, ns, ns)` |
| Hamiltonians.GradientDenseAt | qc_lab/ingredients.py:316-325 | Entry `(b, j, i, k)` is `gamma[i][j]` when `i == k`, and zero elsewhere |
| Hamiltonians.GradientStoredEntry | qc_lab/ingredients.py:316-328 | Every stored entry sits on a diagonal `(b, j, i, i)` and holds the non-zero `gamma[i][j]` |
| Hamiltonians.GradientNonzeroStored | qc_lab/ingredients.py:316-328 | Every diagonal position with non-zero `gamma[i][j]` is stored |
| Hamiltonians.GradientSparseEntries | qc_lab/ingredients.py:316-328 | All stored entries are diagonal, non-zero coupling constants, in row-major order |
| Hamiltonians.GradientSlab | qc_lab/ingredients.py:316-321 | The loop writes `gamma[i][j]` at `(j, i, i)` and leaves zeros elsewhere |
| Hamiltonians.Model.DiagonalLinearDhQcDzc | qc_lab/ingredients.py:292-333 | When stale: returns and caches the sparse triple of the dense gradient for this batch size, leaving the lattice cache alone. Otherwise: returns the cached triple and changes nothing |
| Hop.RescaleFactor | qc_lab/ingredients.py:382-393 | A factor exists if and only if the discriminant is non-negative; it is 0 when `a == 0` |
| Hop.CompleteSquare | qc_lab/ingredients.py:382-391 | `4a (a g^2 - b g + c) == (2ag - b)^2 - disc` |
| Hop.RescaleRoot | qc_lab/ingredients.py:382-391 | For `a != 0` and a non-negative discriminant, the factor solves `a g^2 - b g + c = 0` |
| Hop.RootsAreTheTwo | qc_lab/ingredients.py:382-391 | Every real root has `2ar - b = ±sqrt(disc)`, so the discriminant is non-negative |
| Hop.RescaleNoneNoRoot | qc_lab/ingredients.py:383-395 | When the solver reports no hop, the quadratic has no real root |
| Hop.RescaleSmallest | qc_lab/ingredients.py:384-391 | For `a != 0`, the solver's root has the smallest magnitude of all roots |
| Hop.HopOutcome | qc_lab/ingredients.py:392-395 | `True` and `-i gamma dz` when a factor exists; `False` and zeros otherwise |
| Hop.HoCoefficientsReal | qc_lab/ingredients.py:358-380 | The harmonic oscillator's `akj` and `bkj` are real |
| Hop.HarmonicOscillatorHop | qc_lab/ingredients.py:336-395 | It hops if and only if `bkj^2 - 4 akj ev_diff >= 0`; a hop returns `-i gamma dz` with `gamma` a root of `akj g^2 - bkj g + ev_diff` (0 when `akj == 0`), no hop returns zeros |
| Hop.FpCoefficientsReal | qc_lab/ingredients.py:420-429 | The free particle's `akj` and `bkj` are real |
| Hop.FpTermANonPositive | qc_lab/ingredients.py:420-428 | Each mode's `akj` term is `-h (Re dz)^2`, never positive for `h >= 0` |
| Hop.FreeParticleHop | qc_lab/ingredients.py:398-445 | It hops if and only if `bkj^2 + 4 akj ev_diff >= 0`; a hop returns `-i gamma dz` with `gamma` a root of `akj g^2 - bkj g - ev_diff` (0 when `akj == 0`), no hop returns zeros |
| Samplers.Generator.constructor | qc_lab/ingredients.py:464-465 | The generator holds its state, its seeding function and its normal draw |
| Samplers.DrawRow | qc_lab/ingredients.py:465-477 | One pass: reseed, draw `q`, draw `p`, convert; the row and the generator state are those of `SampleRow` |
| Samplers.GaussianInitClassical | qc_lab/ingredients.py:464-478 | Row `s` is the row drawn right after reseeding with `seeds[s]`; the generator ends in the state the last row left |
| Samplers.RowDependsOnlyOnSeed | qc_lab/ingredients.py:464-478 | Equal seeds give equal rows, wherever they sit in the seed list |
| Samplers.RowsPermute | qc_lab/ingredients.py:464-478 | Permuting the seeds permutes the rows the same way |
| Samplers.RowsSplit | qc_lab/ingredients.py:464-478 | Sampling a concatenation of seed batches concatenates the outputs |
| Samplers.BoltzmannEquipartition | qc_lab/ingredients.py:467-477 | Zero means; `m w^2 std_q^2 == kBT` and `std_p^2 == m kBT` |
| Samplers.GroundMinimumUncertainty | qc_lab/ingredients.py:505-507 | Ground-state spreads satisfy `std_q std_p == 1/2` |
| Samplers.WignerThermalUncertainty | qc_lab/ingredients.py:502-504 | Above zero temperature: zero means and `std_q std_p == 1 / (2 tanh(w / 2kBT))` |
| Samplers.WignerZeroTemperature | qc_lab/ingredients.py:502-507 | At `kBT <= 0` the Wigner sampler draws from the coherent state with zero displacement |
| Samplers.CoherentMeanCoordinate | qc_lab/ingredients.py:570-571 | Mapped to `z` with weight `w`, the mean has `Re z == Re a` and `Im z * m w == Im a` |
| Samplers.HarmonicOscillatorBoltzmannInitClassical | qc_lab/ingredients.py:448-479 | The output is the shared sampler's rows on the Boltzmann distribution, one per seed |
| Samplers.HarmonicOscillatorWignerInitClassical | qc_lab/ingredients.py:482-518 | The output is the shared sampler's rows on the Wigner distribution (thermal above zero temperature, ground at or below), one per seed |
| Samplers.HarmonicOscillatorCoherentStateWignerInitClassical | qc_lab/ingredients.py:543-582 | The output is the shared sampler's rows on the coherent-state distribution, one per seed |
| Samplers.DefinitePositionMomentumInitClassical | qc_lab/ingredients.py:521-540 | Every row is `qp_to_z(q, p)`; the generator ends reseeded with the last seed |
| Aggregation.RecordEffect | qc_lab/data.py:37-46 | Row `t_ind // dt_collect_n` of each output key times the norm is the trajectory sum of each column. Other rows keep their values, or are zeros for a new key of `len(tdat_output)` rows. Keys without output are untouched |
| Aggregation.RecordLoopStep | qc_lab/data.py:37-46 | One loop pass writes exactly its key |
| Aggregation.RecordOutputs | qc_lab/data.py:37-46 | The loop over the output keys computes `Record` |
| Aggregation.Merge | qc_lab/data.py:55-71 | Seeds are concatenated with this accumulator's first; norms add |
| Aggregation.MergeWeighted | qc_lab/data.py:63-70 | A shared key times the new norm is the norm-weighted sum of both sides; a key of one side keeps that side's table |
| Aggregation.MergeSymmetric | qc_lab/data.py:55-71 | Swapping the two sides gives the same tables and norm, and the same seeds in another order |
| Aggregation.CombineSymmetric | qc_lab/data.py:65-68 | The weighted average does not depend on the order of its sides |
| Aggregation.CombineAssociative | qc_lab/data.py:65-68 | Averaging three tables groups either way to the same table |
| Aggregation.MergeSharedKeys | qc_lab/data.py:63-68 | Accumulators with the same keys merge key by key into the weighted average |
| Aggregation.MergeAssociative | qc_lab/data.py:55-71 | With the same keys and shapes on all three sides and non-zero norm sums, `(a+b)+c == a+(b+c)` |
| Aggregation.MergePartialKeysNotAssociative | qc_lab/data.py:63-70 | A key missing from the middle accumulator averages to 2/3 one way and 1/3 the other |
| Aggregation.MergeIntoZeroNorm | qc_lab/data.py:63-70 | Merging into a norm-zero accumulator takes every incoming table unchanged |
| Aggregation.MergeSelf | qc_lab/data.py:55-71 | `d.add_data(d)` doubles seeds and norm and keeps every table |
| Aggregation.MergeLoopStep | qc_lab/data.py:58-70 | One loop pass writes exactly its key |
| Aggregation.MergeTables | qc_lab/data.py:58-70 | The loop over the incoming keys computes the merged tables |
| Aggregation.Data.constructor | qc_lab/data.py:16-19 | The given seeds (or none), norm zero, no tables |
| Aggregation.Data.AddOutputToDataDict | qc_lab/data.py:21-46 | Fails and changes nothing when both norms are missing. Otherwise takes the state's norm if its own is zero, keeps the seeds, and records every output |
| Aggregation.Data.AddData | qc_lab/data.py:48-71 | The new contents are `Merge` of the old contents of both accumulators |
| Persistence.H5File.constructor | qc_lab/data.py:84 | A file opened for writing is empty |
| Persistence.SaveFailsIffUnsupported | qc_lab/data.py:114-135 | Saving raises if and only if an unsupported item is reachable, and the error names such an item |
| Persistence.SaveStaysBelow | qc_lab/data.py:114-135 | Datasets not strictly below `path` are left as they were |
| Persistence.SaveWritesFlatten | qc_lab/data.py:114-135 | A fully supported dictionary saves without error, adding exactly its flattened datasets |
| Persistence.FlattenBelow | qc_lab/data.py:129-133 | Every written dataset lies below `path`, under its entry's key |
| Persistence.Expected | qc_lab/data.py:146-151 | The expected reload has exactly the dictionary's keys; each dataset is what reading makes of the stored value |
| Persistence.LoadExpected | qc_lab/data.py:146-151 | Any file that agrees with a well-formed dictionary's flattening below `path` loads back as expected |
| Persistence.SaveLoadRoundTrip | qc_lab/data.py:105-151 | A well-formed dictionary saves into an empty file without error and loads back with the same nesting, each leaf converted by the read conversion |
| Persistence.LeafReadBack | qc_lab/data.py:146-148 | A saved leaf loads back as `read(v)`, and equals the value written exactly when `read(v) == v` |
| Persistence.EmptyDictionaryLost | qc_lab/data.py:130-151 | An empty nested dictionary writes nothing and does not come back |
| Persistence.RecursiveSave | qc_lab/data.py:105-135 | The file's new datasets and the error raised are those of `Save` |
| Persistence.RecursiveLoad | qc_lab/data.py:137-151 | The result is `dic` updated with every child of the group at `path`, datasets read through `read`, groups loaded recursively |
| ChangeNotifier.AfterSet | qc_lab/constants.py:17-32 | Assigning a constant leaves the re-entrancy flag as it found it |
| ChangeNotifier.AssignWhileUpdating | qc_lab/constants.py:22-27 | During a notification an assignment only stores its value |
| ChangeNotifier.AssignAllStores | qc_lab/constants.py:22-27 | The update function's assignments are all stored, and none of them notifies |
| ChangeNotifier.NotifiesExactlyOnce | qc_lab/constants.py:22-32 | After init, outside a notification, with an update function: exactly one invocation. It sees the new value and the raised flag; its writes, computed from what it saw, are all stored; the flag is lowered afterwards |
| ChangeNotifier.SilentBeforeInit | qc_lab/constants.py:22-28 | Before init is complete, an assignment only stores |
| ChangeNotifier.ReservedNeverNotifies | qc_lab/constants.py:22-27 | Assigning a reserved name never invokes the update function |
| ChangeNotifier.NoFunctionNoCall | qc_lab/constants.py:29-32 | Without an update function, an assignment only stores, and the flag is raised and lowered |
| ChangeNotifier.GetConstant | qc_lab/constants.py:34-38 | The stored value if assigned, else the default |
| ChangeNotifier.GetAfterSet | qc_lab/constants.py:22-38 | A value assigned without notification reads back through `get` |
| ChangeNotifier.Constants.constructor | qc_lab/constants.py:12-15 | Not updating, init not complete, the given update function, no constants |
| ChangeNotifier.Constants.SetAttr | qc_lab/constants.py:17-32 | The new state is `AfterSet` of the old state |
| ChangeNotifier.Constants.CallUpdate | qc_lab/constants.py:31 | The invocation logs one observation, then assigns its writes in order through `SetAttr` |
| ChangeNotifier.Constants.Get | qc_lab/constants.py:34-38 | `get(name, default)` is `GetConstant` of the state |

## Left out

- Floating point: values are exact reals. NaN, infinity, rounding, and numpy's division by zero (a warning and `inf`, not an exception) are not modelled. Where the source would divide by zero, a `requires` excludes it: a zero norm in `Divide`/`Combine`, and a zero product of mass and weight.
- Square root and `tanh` are function parameters. The square root is characterised only by its defining property.
- The random generator's internals (Mersenne Twister, Box–Muller) are not modelled. `np.random.seed` and the standard-normal draw are the `Generator`'s `reseed` and `gauss` parameters, and a normal draw is `mean + std * g`. numpy raises on a negative spread; that error is not modelled.
- `Samplers.BoltzmannEquipartition`, `Samplers.GroundMinimumUncertainty` and `Samplers.WignerThermalUncertainty` assume positive masses and frequencies. Otherwise numpy's roots of negative numbers are NaN.
- `Samplers.CoherentMeanCoordinate` takes the weights equal to the frequencies. Under that assumption it states the mean `z` the code produces: `Im z` is `Im a / (m w)`, equal to `Im a` only when `m w == 1`.
- The numeric dtypes and the shapes numpy broadcasts are not modelled. `Data` outputs are real vectors per trajectory; complex-valued and multi-dimensional outputs are left out.
- In `add_output_to_data_dict`, `Aggregation.Data.AddOutputToDataDict` requires what numpy would otherwise fail or broadcast on. The row index is within the table, the output widths match, and no output key is `seed` or `norm_factor`. When a zero norm is taken from the state, the method requires outputs to be empty or the norm non-zero.
- In `add_data`, `Aggregation.Data.AddData` requires shared keys to have equal shapes and a non-zero summed norm when a key is shared. numpy would broadcast or produce NaN otherwise.
- `load`: h5py's conversion on reading (`item[()]` returns a string dataset as `bytes` and a Python scalar as a numpy scalar) is the `read` parameter; which values it changes is not modelled, so the round trip is stated up to `read` (`Persistence.LeafReadBack`).
- `save` / `load`: opening the file and numpy's `savez` fallback (`DISABLE_H5PY`) are file I/O and are not modelled. The file is a map from key paths to datasets. Groups exist only as prefixes of dataset paths, so an empty group is not represented (see `Persistence.EmptyDictionaryLost`).
- Paths are sequences of keys. A key containing `/`, which h5py would split into nested groups, is not modelled. Writing over an existing dataset, which h5py refuses, is modelled as an overwrite; it does not occur for a dictionary's distinct keys saved into a fresh file.
- A list is saved through the `pack` parameter standing for `np.array(list)`. Which list values numpy can pack is not modelled.
- `Persistence.RecursiveLoad` returns the filled dictionary instead of filling the caller's nested dictionaries in place. Dictionary aliasing is not modelled.
- `Constants`: an update function is modelled by what it does: it observes the object, then assigns a list of non-reserved constants computed from the constants it observed on entry. An update function that reads a constant after assigning it, or reads anything but the constants, is not modelled. Update functions that raise are not modelled; in the source they leave `_updating` set. Update functions that assign reserved names are excluded by `CallbackOk`. `get` on the reserved names or on class attributes is excluded.
- `Hamiltonians.Model.NearestNeighborLatticeHq` requires a cache hit for periodic boundaries on zero sites. On that input the source indexes an empty array and raises `IndexError`.
- Decorators (`functools.wraps`), `njit` compilation and the `model` / `parameters` plumbing are left out. Constants reach each ingredient as parameters.
- The energies behind the hop functions are not modelled. Energy conservation of the rescaled coordinate is therefore stated only as "the factor solves the quadratic" (`Hop.RescaleRoot`).
- `Vectorize.VectorizedIngredient`: `np.array` stacking of the results is a sequence of results. Ragged outputs are not modelled.
- `Hamiltonians.DiagonalLinearHQc` turns the source's `assert len(z) == batch_size` into a precondition.
