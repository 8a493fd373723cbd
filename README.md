# parmalgt-analysis in Dafny

This project models the analysis chain for numerical stochastic
perturbation theory (NSPT) Monte Carlo data. The chain is:

1. read an XML configuration into a tree of tag objects;
2. read each configured directory's raw binary streams and de-interleave
   them into `data[order][replicum][configuration]`;
3. estimate means and errors with the Gamma method, taking
   autocorrelation into account (U. Wolff, "Monte Carlo errors with less
   errors", hep-lat/0306017);
4. extrapolate the results to the continuum limit with a weighted linear
   least-squares fit.

The project has one module per source file, plus four support modules.

| file | module | models |
|---|---|---|
| `puwr.dfy` | `Puwr` | `means`, `DataInfo`, `deriv`, `DataProject`, `gamma`, the window search of `tauint`, `correlated_data`, `idf` |
| `actions.dfy` | `Actions` | `ContinuumLimit` (a class: `__init__`, `estimate`), `dummy`, `extrapolate_cl`, the closed-form check in `extrapolate`, and the integer branch of `pretty_print` |
| `xml_parser.dfy` | `XmlParser` | the SAX handler `Root` (a class), `create_element`, `Node.__new__`/`characters`, the `__init__` and `finalize` of every tag class, and `parse_file` |
| `parser.dfy` | `Parser` | `Node.xml`, `Node.split`, `Node.has_parent`, `tagname` |
| `analyze.dfy` | `Analyze` | `Data.__init__`: the file filter, trimming, scaling and regrouping |
| `builtins.dfy` | `Builtins` | the Python built-ins used: `strip`, `split`, `lower`, `capitalize`, `int()`, `str()` of an integer, `in` on strings, `range` |
| `sums.dfy` | `RealSums` | sums and concatenation of real sequences, and permutation invariance |
| `elementary.dfy` | `Elementary` | square root and exponential as function parameters, with the facts the proofs use |
| `wrappers.dfy` | `Wrappers` | `Option` and `Result` |

## How the model works

- Arithmetic is exact, over `real`.
  - numpy's NaN and inf outcomes are modelled as the exceptions they lead
    to. For example, a zero autocovariance `G[0]` makes every `tint` NaN,
    so `np.where(g < 0)[0][0]` raises IndexError. That becomes
    `Failure(NoWindow)`.
  - Square root and exponential are parameters (`Elementary.Funcs`). The
    only facts assumed about them are that they are non-negative and
    positive where the proofs need it.
- The SVD pseudo-inverse in `ContinuumLimit.estimate` is an input.
  - For the default basis `{1, x}`, `Actions.LinePinv` gives it explicitly
    as `(fᵀf)⁻¹fᵀ`, and it is proved to be a left inverse.
- The XML builder has two modelling choices.
  - A document arrives as a sequence of SAX events.
  - The tag objects live in an arena of node records, held in the `nodes`
    field of the handler class `Root`. Each node records its class, its
    parent index, its children, its text buffer, and its attributes as a
    map. A tag object's `finalize` writes into or appends to its parent.
    This is `XmlParser.Finalized`, a function from arena to arena.
  - The `eval` dispatch on the capitalised tag name is a finite registry
    of the 17 tag classes.
  - What one event does to the handler's state is the function
    `XmlParser.Applied`, and what a whole document does is
    `XmlParser.Fed`. The handler's methods are proved to do exactly that.
- The builder in `parser.py` (lines 7-255) is the same as the one in
  `xml_parser.py` (lines 106-388), apart from docstrings. It is modelled
  once, and the table below cites the `xml_parser.py` lines.
- `parser.py` adds three tree utilities.
  - `xml()` and `split()` only look downward, so they are defined on a
    `Parser.Tree` read off the arena.
  - `has_parent` follows parent links on the arena.
  - `xml()` formats with a byte-string literal, so Python 2 encodes each
    leaf text as ASCII. A non-ASCII leaf text raises UnicodeEncodeError
    (`Parser.XmlWritable`).
  - `split` can never yield anything. A node without children runs an
    empty loop, and a node with children only yields what its children
    yield (`Parser.SplitEmpty`).
- The window of `tauint` follows the code, not Wolff's description.
  - `g[k]` judges window `W = k + 1`.
  - The code reads `tint`, `dtint` and the error at index `k`, the first
    `k` with `g[k] < 0`, not at the window `k + 1` that `g[k]` judges.
  - `Puwr.Window` and `Puwr.Tauint` state the index the code uses.

## Model

| member | source | states |
|---|---|---|
| `Puwr.Means` | puwr.py:14-22 | one mean per observable: the total of all its replica divided by its number of measurements |
| `Puwr.MeanOfConcatAll` | puwr.py:22 | the mean of `np.hstack` of the replica equals the block-wise mean, so replicum boundaries do not matter |
| `Puwr.DataInfo` | puwr.py:30-41 | no observable raises IndexError (`data[0]`); otherwise DataSanityCheckFail is raised exactly when some observable's per-replicum lengths differ from observable 0's, and else `R = len(data[0])` and `N` is the sum of the lengths |
| `Puwr.Deriv` | puwr.py:43-52 | the derivative is the central difference `(f(a + h e_alpha) - f(a - h e_alpha)) / 2h`, with every other argument unchanged |
| `Puwr.DerivAffine` | puwr.py:43-52 | the central difference is exact for affine functions: it returns the coefficient of the varied argument |
| `Puwr.DerivIdf` | puwr.py:168-169 | the derivative of `idf(n)` in direction `alpha` is 1 when `alpha == n` and 0 otherwise |
| `Puwr.NewProjector` | puwr.py:62-78 | propagates the shape error; no measurement gives NoData; on success the means are per-observable averages, and the steps are `sqrt(G_aa / N)` with `G_aa` the squared deviations over `N`, never negative |
| `Puwr.PyIndex` | puwr.py:88-89 | Python indexing: defined exactly for `-len <= n < len`, with negative `n` counted from the end |
| `Puwr.Project` | puwr.py:79-95 | an integer selects that observable unchanged (IndexError out of range); a function fails exactly when some step is 0, and otherwise gives, per measurement, the gradient at the means dotted with the measurement's observables, in the data's replica shape |
| `Puwr.ProjectIdf` | puwr.py:88-95 | for `0 <= n <` the number of observables, projecting through `idf(n)` gives back exactly what selecting observable `n` by index gives |
| `Puwr.DerivedShape` | puwr.py:97-100 | the derived series has `R > 0` replica with the recorded lengths, and `N` measurements in all |
| `Puwr.ConvolveReversed` | puwr.py:104-106 | reading the convolution of `x` with its reverse backwards gives the lag sums `sum_j x[j] x[j+t]`: the direct definition the FFT computes |
| `Puwr.ReplicumLags` | puwr.py:104-106 | one replicum's contribution at lag `t` is the lag-`t` sum of its centred series |
| `Puwr.LagTotals` | puwr.py:104-106 | `Gtil = sum(lags)` with numpy broadcasting: entry `t` adds every replicum's lag-`t` sum, and a one-value replicum adds its lag-0 sum at every lag |
| `Puwr.Normalised` | puwr.py:107-108 | entry `t` of `Gtil * [1./(N - R*t) ...]` is `Gtil[t]` divided by `N - R t`, when no denominator is 0 |
| `Puwr.Autocovariance` | puwr.py:104-108 | ValueError exactly when some replicum has neither the longest length `n` nor a single value; otherwise ZeroDivisionError exactly when `N - R t = 0` for some `t < n`; otherwise `n` lags, `G[t]` the broadcast lag-`t` total over `N - R t` |
| `Puwr.Gamma` | puwr.py:97-108 | propagates the projection's failure; otherwise fails with ValueError or ZeroDivisionError exactly as `Autocovariance` does, and on success `om` is the grand mean and `G[t]` the broadcast lag-`t` total over `N - R t`, for every lag below the longest replicum length |
| `Puwr.GammaEqualLengths` | puwr.py:97-108 | replica of one common length `n` never fail: `N = R n`, and `G[t]` is the lag-`t` sum over all replica divided by the positive number `R (n - t)` of pairs |
| `Puwr.BroadcastShapes` | puwr.py:104-108 | lengths 4 and 1 give four lags, the last with denominator -1 and the single value counted at lag 3; lengths 3 and 1 raise ZeroDivisionError; lengths 2 and 3 raise ValueError |
| `Puwr.GammaZeroVariance` | puwr.py:107-108 | `G[0]` is never negative, and when it is 0 the whole autocovariance is 0 |
| `Puwr.TintSteps` | puwr.py:112-117 | `tint` starts at 1/2 and grows by `G[W]/G[0]` per window step |
| `Puwr.PartialSumIsSum` | puwr.py:112-116 | the running sum the loop builds is `G[1] + ... + G[W]` |
| `Puwr.RunningSums` | puwr.py:112-116 | the loop's list `sums` holds every partial sum `G[1] + ... + G[j]`, starting with 0 |
| `Puwr.FirstNegative` | puwr.py:123 | `np.where(g < 0)[0][0]`: the first index with a negative entry, and none exactly when no entry is negative |
| `Puwr.EstimateAt` | puwr.py:124-126 | the estimate read off at window index `W` carries that index and `tint[W]` |
| `Puwr.Window` | puwr.py:112-126 | no `G` gives IndexError; `G[0] == 0` gives no window; otherwise succeeds exactly when some criterion is negative, at the first such index |
| `Puwr.Tauint` | puwr.py:110-155 | propagates `gamma`'s failure; otherwise returns the grand mean, the error, `tint`, `dtint`, `G` and `W` read at the first negative criterion, and fails exactly when there is none |
| `Puwr.NuStep` | puwr.py:164-165 | each step of the chain is `sqrt(1 - a^2) eta[i] + a nu[i-1]` |
| `Puwr.CoefficientGivesTau` | puwr.py:160 | for `tau > 0` the AR(1) coefficient lies in (-1, 1) and its autocorrelation time `(1 + a) / 2(1 - a)` is `tau` |
| `Puwr.CorrelatedData` | puwr.py:158-166 | the chain `nu` scaled by 0.2 and shifted by 1, as one observable with one replicum; ZeroDivisionError for `2 tau + 1 = 0` and IndexError for no deviates |
| `Puwr.CorrelatedDataShape` | puwr.py:158-166 | the generated data passes `DataInfo` with one observable, one replicum and `l` measurements |
| `Actions.PrettyPrintIntRoundTrip` | actions.py:18-20 | the text `"val(int(err))"` reads back as `val` and `err` truncated toward zero |
| `Actions.Trunc` | actions.py:20 | `int()` of a real truncates toward zero |
| `Actions.Dummy` | actions.py:106-109 | a point with value `d` and variance `e*e`, which is never negative |
| `Actions.KeysMembership` | actions.py:62-68 | a lattice size is a key of `data` and `errsq` exactly when some sample carries it |
| `Actions.LastWins` | actions.py:62-68 | for a repeated `L`, the last sample wins: its value and variance are the dict entries |
| `Actions.Tabulate` | actions.py:60-68 | the loop builds the dicts `data` and `errsq` that the samples define, last sample winning |
| `Actions.Insert` | actions.py:71 | inserting into a strictly increasing list keeps it strictly increasing, and its elements are exactly those of the list and the new one |
| `Actions.SortedKeys` | actions.py:71 | `sorted(data)` is strictly increasing and holds exactly the lattice sizes that occur |
| `Actions.Column` | actions.py:71 | the dict entries in the order of the sorted keys |
| `Actions.Design` | actions.py:75 | the design matrix: `f[j][k] = fns[k](L_j)` |
| `Actions.ContinuumLimit.constructor` | actions.py:55-84 | given weights of the right length, the weights default to ones; `Ls`, `F`, `deltasq` and `f` are the columns and design matrix over the sorted lattice sizes |
| `Actions.NewContinuumLimit` | actions.py:55-84 | `ContinuumLimit(data_in, fns, wij=wij)` raises AssertionError exactly when a non-empty `wij` does not have one weight per sample; otherwise a fresh object with unit or given weights, and `Ls`, `F`, `deltasq` and `f` the columns and design matrix over the sorted lattice sizes |
| `Actions.RowCount` | actions.py:89-90 | the row count `estimate` asserts against is at least 1 (`np.mat([])` has one row) and equals the number of lattice sizes otherwise |
| `Actions.Fit` | actions.py:85-104 | the assertion fails exactly when `Imin` is not below the row count; the fit succeeds exactly when `Imin == 0`, there is a lattice size and the weights match |
| `Actions.ContinuumLimit.Estimate` | actions.py:85-104 | on success `alpha = finv W F` and `delta = finv² W² deltasq`, and `residual` becomes the norm of `f alpha - F`; on failure `residual` is unchanged |
| `Actions.PropagatedNonNegative` | actions.py:100-101 | propagated variances are non-negative when the input variances are |
| `Actions.FitVariancesNonNegative` | actions.py:100-101 | a successful fit never reports a negative variance for non-negative input variances |
| `Actions.ResidualNonNegative` | actions.py:102 | the squared residual is a sum of squares, never negative |
| `Actions.Zip` | actions.py:112-113 | `zip` stops at the shortest list, and sample `j` is `({'L': x_j}, [dummy(y_j, dy_j)])` |
| `Actions.ExtrapolateCl` | actions.py:111-117 | an unweighted fit from `Imin = 0` of the zipped samples over their sorted lattice sizes |
| `Actions.DefaultBasis` | actions.py:160 | the default basis is the constant 1 and the identity |
| `Actions.LinePinvLeftInverse` | actions.py:160 | the explicit `(fᵀf)⁻¹fᵀ` for the basis `{1, x}` is a left inverse of the design matrix |
| `Actions.ExactLine` | actions.py:111-117 | data exactly on a line `a + b x` (at least two distinct `x`) is fitted with coefficients `[a, b]` and a zero residual |
| `Actions.SortedLatticeSizes` | actions.py:112-116 | for distinct `x`, the sorted lattice sizes are a permutation of `x` |
| `Actions.PermutedSums` | actions.py:189-191 | `n`, `Sx`, `Sxx` and the determinant do not depend on the order of the points |
| `Actions.ClosedFormIntercept` | actions.py:185-193 | for distinct `x`, the fitted intercept's variance equals the closed form `sum ((Sxx - Sx x_i) / (n Sxx - Sx²))² dy_i²` |
| `Actions.AsWrittenForThree` | actions.py:189-191 | with exactly three points, the hard-coded 3 is the point count and the check's sum equals the closed form |
| `Actions.AsWrittenMismatch` | actions.py:189-193 | at `x = [1, 2]`, `dy = [1, 1]` the closed form is 5 but the check's sum gives 5/36 |
| `XmlParser.TagOf` | xml_parser.py:121-126 | a tag name is resolved exactly when some class is named by `name.lower().capitalize()` (Python 2's simple case mapping, so `<ſhow>` opens `Show` and `<analysİs>` opens `Analysis`), and then to that class |
| `XmlParser.TagNameDispatch` | xml_parser.py:153-154 | any spelling of a class's `tagname` in any letter case dispatches back to that class |
| `XmlParser.ParseAll` | xml_parser.py:325 | `[int(i) for i in s.split()]`: all words parse, or ValueError exactly when some word does not |
| `XmlParser.IntsOfSpaced` | xml_parser.py:325 | integers written out separated by spaces parse back to the same list |
| `XmlParser.SetField` | xml_parser.py:277-282 | an attribute write changes that attribute of that object only |
| `XmlParser.AppendTo` | xml_parser.py:388 | `obj.name.append(v)` succeeds exactly when `name` is a list attribute, appends `v` to it, and changes nothing else; AttributeError otherwise |
| `XmlParser.IntsAttr` | xml_parser.py:325 | an absent attribute gives AttributeError; otherwise the words parse as integers or give ValueError |
| `XmlParser.Finalized` | xml_parser.py:221-388 | closing a tag keeps the tree's shape and changes only the object and its parent |
| `XmlParser.Depth` | xml_parser.py:130-151 | the nesting depth is 0 exactly at the handler |
| `XmlParser.OpenedWellFormed` | xml_parser.py:138-143 | opening a child keeps the arena a tree, one level deeper |
| `XmlParser.Root.constructor` | xml_parser.py:132-137 | a fresh handler is alone and current |
| `XmlParser.Root.StartElement` | xml_parser.py:138-143 | an undefined tag or a failing `__init__` leaves the tree as it was; otherwise a new object is appended as a child of the current one and becomes current |
| `XmlParser.Root.Characters` | xml_parser.py:149-151 | text inside an element is appended to the current object's buffer; at the handler it passes the text to itself until Python raises RuntimeError (maximum recursion depth) |
| `XmlParser.Root.EndElement` | xml_parser.py:144-148 | closing at the handler raises AttributeError; otherwise the current object is finalized (or its error raised) and its parent becomes current |
| `XmlParser.Root.Handle` | xml_parser.py:138-151 | the handler's new state, or the error it raises with the state unchanged, is what `Applied` gives; a handled event changes the depth by +1, 0 or -1 |
| `XmlParser.Root.Feed` | xml_parser.py:138-151 | the outcome and, when nothing raised, the new state are what `Fed` gives; the depth changes by opening minus closing tags, so a balanced document returns to the handler |
| `XmlParser.Applied` | xml_parser.py:138-151 | one event's effect on the handler state: an opening tag appends the new object under the current one and makes it current, text extends the current buffer, a closing tag finalizes and returns to the parent; the state stays a tree that keeps every parent link |
| `XmlParser.Fed` | xml_parser.py:138-151 | the events applied in order, stopping at the first error; the state stays a tree |
| `XmlParser.FailureKept` | xml_parser.py:138-151 | after an event raises, the later events change nothing in the outcome |
| `XmlParser.AppliedDepth` | xml_parser.py:138-151 | a handled opening tag goes one level down, a closing tag one level up, text stays |
| `XmlParser.FedDepth` | xml_parser.py:138-151 | after all events are handled, the depth has changed by opening minus closing tags |
| `XmlParser.ParseFile` | xml_parser.py:390-403 | a fresh handler fed the events: its outcome and state are what `Fed` gives from a lone handler; an error raised while feeding is the result, otherwise the result is the handler's `run` attribute, or AttributeError when it has none |
| `XmlParser.TextLeaf` | xml_parser.py:280-314 | closing `<label>`, `<path>` or `<filenamecontains>` stores the enclosed text without surrounding whitespace in the parent, and changes nothing else |
| `XmlParser.IntLeaf` | xml_parser.py:255-306 | closing `<max_order>`, `<lval>` or `<ntherm>` around a decimal integer stores that integer in the parent |
| `XmlParser.IntLeafRejects` | xml_parser.py:255-306 | non-integer text in those tags raises ValueError |
| `XmlParser.FlagLeaf` | xml_parser.py:296-302 | `<swap_endian>` and `<complex>` set the parent's flag to true, whatever they enclose |
| `XmlParser.NewDirectory` | xml_parser.py:259-274 | a new directory has the defaults: no byte swap, real data, normalisation 1, empty filter, unset label |
| `XmlParser.DirectoryClosed` | xml_parser.py:275-278 | an unset or empty label becomes the path, and the directory is appended to the parent's list (AttributeError when the parent has none) |
| `XmlParser.ActionAppended` | xml_parser.py:322-372 | `<show>` and `<plot>` append themselves to the parent's `actions` or `plots`, or raise AttributeError |
| `XmlParser.ActionsHandedOver` | xml_parser.py:316-320 | `<actions>` hands its list to its parent |
| `XmlParser.ShowOrders` | xml_parser.py:322-334 | `<show orders="...">` records the listed integers as `orders` and `kwargs` |
| `XmlParser.ExtrapolateSizes` | xml_parser.py:336-355 | `L` is None when the attribute is absent or empty, and the listed integers when it lists some |
| `XmlParser.ExtrapolateClosed` | xml_parser.py:350-355 | closing `<extrapolate>` sets its `kwargs` to `orders`, `L_sizes`, `mk_plots` and appends it to the parent's `actions`, changing nothing else; AttributeError exactly when an attribute or the parent list is missing |
| `XmlParser.ThermCreated` | xml_parser.py:375-379 | `Therm.__init__` succeeds exactly when `orders` lists integers and `range` exactly three; AttributeError for a missing and ValueError for a malformed attribute, `orders` checked first; `start`, `end`, `step` are the three integers |
| `XmlParser.PlotFields` | xml_parser.py:358-370 | a new plot has empty `data`, `cl`, `fit`, `labels`, the given `L`, `orders`, `pdfname`, `ylabel`, and one float per `known` word |
| `XmlParser.PlotCreated` | xml_parser.py:358-370 | `Plot.__init__` succeeds exactly when `L` and `orders` list integers, `L` checked first with AttributeError or ValueError; `pdfname` defaults to None, `known` to empty, `ylabel` to "" |
| `XmlParser.AnalysisClosed` | xml_parser.py:225-226 | closing `<analysis>` sets the parent's `run` to it and changes nothing else; the parent becomes current, and at the top the handler holds `run` |
| `XmlParser.ThermCutoffs` | xml_parser.py:374-388 | the cut-offs are `range(start, end, step)`, i.e. `start + k step` while short of `end`, and the object is appended to the parent's actions |
| `XmlParser.ThermZeroStep` | xml_parser.py:385-387 | a zero step raises ValueError |
| `Builtins.ParseDecimal` | xml_parser.py:257 | `int(str(n)) == n` |
| `Builtins.SpaceAfterSign` | xml_parser.py:257 | `int()` skips whitespace between the sign and the digits: `int("- 5") == -5` |
| `Builtins.StripSpec` | xml_parser.py:282 | `strip()` removes exactly the leading and trailing whitespace |
| `Builtins.Split` | xml_parser.py:325 | `split()` gives non-empty, whitespace-free words that together hold exactly the non-whitespace characters |
| `Builtins.RangeEntries` | xml_parser.py:386-387 | `range(start, stop, step)` lists `start + k step` in order, exactly while short of `stop` |
| `Parser.Encoded` | parser.py:77-78 | `str.format` into a byte string succeeds exactly on ASCII text, which it keeps |
| `Parser.XmlWritable` | parser.py:72-78 | `xml()` raises UnicodeEncodeError exactly when some leaf's stripped text is not ASCII |
| `Parser.XmlLeaf` | parser.py:72-78 | a leaf is written as its text without surrounding whitespace, between its opening and closing tag, or raises UnicodeEncodeError when that text is not ASCII |
| `Parser.XmlSameText` | parser.py:72-78 | `xml()` depends only on the classes, the shape and the stripped leaf texts |
| `Parser.XmlDropsInnerText` | parser.py:72-78 | the text of an object with children is never written |
| `Parser.TreeOf` | parser.py:59-68 | the tree read off the arena keeps each object's class, text and number of children |
| `Parser.SplitEmpty` | parser.py:79-84 | `split(name)` yields nothing, for every tree and every name |
| `Parser.HasParent` | parser.py:85-93 | true exactly when some object on the chain of parents, the handler included, passes the test; a test raising AttributeError does not pass |
| `Parser.AncestorPassesIff` | parser.py:85-93 | walking the parents and testing each is equivalent to some ancestor passing the test |
| `Parser.HandlerIsAncestor` | parser.py:24-30 | the handler is an ancestor of every tag object |
| `Analyze.FilesIff` | analyze.py:45 | a file is read exactly when it is listed and its name contains `fn_contains` |
| `Analyze.SliceFrom` | analyze.py:48 | Python's `s[k:]`: a suffix of `s`, empty past the end, counted from the end for negative `k` |
| `Analyze.ReplicaTrims` | analyze.py:46-55 | a replicum drops its first `ntherm * order` values and scales the rest by the normalisation |
| `Analyze.LoadOutcome` | analyze.py:57-63 | IndexError exactly with no file, ZeroDivisionError exactly with order 0, success exactly when the values fill `nrep * N * ord`; the result has shape `ord x nrep x N` with `N = len(raw[0]) / ord` |
| `Analyze.LoadEntries` | analyze.py:61-63 | when every replicum holds `ord * N` values, `data[o][r][i]` is value `i * ord + o` of replicum `r` |
| `Analyze.Deinterleave` | analyze.py:61-63 | the index arithmetic of `reshape`, `transpose`, `reshape` over the concatenated replica |
| `Analyze.LoadMixesReplica` | analyze.py:59-63 | replica of 5 and 3 values at order 2 are accepted, and a value of the first replicum lands in the second |
| `Analyze.LoadCheckedOutcome` | analyze.py:57-63 | with lengths checked, success exactly when all replica are equally long and their length is a multiple of the order |
| `Analyze.LoadCheckedEntries` | analyze.py:61-63 | with lengths checked, every entry is the de-interleaved value of its own replicum |

## Left out

- Plotting.
  - The `plots` branch of `tauint`, `mk_plot`, `therm`, and the plotting in
    `extrapolate` are left out. They only draw.
  - The `ffn` closures, which only feed plots, are left out.
- Console output and orchestration are left out: `show`, the prints in
  `extrapolate`, `Analysis.info`, the `__main__` blocks, and argparse.
- File and XML I/O.
  - `os.listdir` and the file reads (`np.fromfile`, `byteswap`, the real part
    of complex data) are parameters of `Analyze.LoadData`.
  - The `xml.sax` parser is replaced by a sequence of events.
- `float()` parsing is left out. `<tauval>`, `<normalization>` and the
  `known` attribute of `<plot>` keep the stripped text as `FloatText`, so a
  malformed float raises no ValueError in the model.
- Floating point is left out. The arithmetic is exact over `real`, and
  square root and exponential are parameters. `np.seterr` and the overflow
  to inf in `exp` are not modelled.
- The float branch of `pretty_print` (`log10` and digit formatting) is left
  out.
- The SVD in `ContinuumLimit.estimate` is left out. The pseudo-inverse is an
  input, and it is explicit only for the basis `{1, x}`.
- The explicit `delta` argument of `ContinuumLimit` and the `ValueError`
  handler around the design matrix are left out. The handler refers to the
  un-imported `sys`, and neither is used by the callers.
- Actions.ContinuumLimit.constructor: takes `assert len(wij) ==
  len(data_in)` as a precondition. `Actions.NewContinuumLimit` models the
  AssertionError in front of it.
- Puwr.Gamma: an empty replicum next to non-empty ones is reported as
  ValueError (`ReplicaLengthMismatch`). What `signal.fftconvolve` returns
  for an empty replicum is not modelled.
- Puwr.Idf: takes a natural `n`, so Python's negative index (`idf(-1)` is
  the last argument) cannot be written. With too few arguments it gives 0.0
  where Python raises IndexError. `Puwr.ProjectIdf` calls it only in range.
- XmlParser.TagOf: `Lower` and `Capitalize` keep every non-ASCII character
  other than ſ, ı, İ and the Kelvin sign unchanged, where Python 2 maps its
  case. The image of such a character is not ASCII either, so it names no
  tag class and the lookup is unaffected. Only the name carried by
  `UndefinedTag` can differ.
- XmlParser.ParseAll: `int()` is modelled on ASCII digits. Python 2's
  `int()` of a unicode string also reads the other Unicode decimal digits
  (for example '٥'), where the model reports ValueError.
- XmlParser.IntsAttr: inherits the ASCII-digit `int()` of `ParseAll`.
- XmlParser.IntLeafRejects: the ValueError it states also covers text in
  other Unicode decimal digits, which Python 2's `int()` accepts.
- A tag name that is not a Python expression makes `eval` raise SyntaxError
  rather than NameError. The model reports `UndefinedTag` for it too.
- `Actions.Fit` takes `Imin` as a natural number. A negative `Imin`, which
  Python would accept as a slice from the end, is not modelled.
- `eval` can also resolve names that are not tag classes, such as `Root`,
  `Node` or `Exception`. The model treats them as undefined tags.
- An undefined tag calls `sys.exit()`. The model reports it as
  `UndefinedTag` and leaves the tree unchanged.
- After an exception, the model's tree is the tree before the failing
  event. In Python, attribute writes that a `finalize` makes before its
  failing line stay done. An example is the label that `Directory.finalize`
  sets before it finds that its parent has no `add_directory`.
- `Analyze.LoadData` reads the directory as a typed record. The
  AttributeError for a directory without `order`, `ntherm` or `L` is not
  modelled.
- `Analyze.LoadData` reports every negative order as ValueError. numpy's
  reshape rejects each such shape, but its messages differ.
- `Parser.Split` does not model the aliasing of `copy.copy`. The copies
  share their children list with the original, and later replacements would
  show through. Since `split` yields nothing, this cannot be observed.
- `Parser.HasParent` models the source's `None` (nothing passed) as false.
  A test raising anything other than AttributeError is not modelled.

## Findings

| source | as written | input that shows it | evidently intended | confidence | as-written member | corrected member |
|---|---|---|---|---|---|---|
| actions.py:191 | the closed-form intercept error divides by `3*sxsq - sx**2`, hard-coding 3 points | `x = [1, 2]`, `dy = [1, 1]`: the sum gives 5/36, the fit's variance is 5 | `n*sxsq - sx**2` with `n = len(x[-1])`, the determinant of `fᵀf` | high (not executed) | `Actions.AsWrittenMismatch` | `Actions.ClosedFormIntercept` |
| analyze.py:59-63 | `N = raw[0].size / ord`, then numpy reshapes the concatenated replica, checking only the total number of values | replica of 5 and 3 values at order 2: 8 values fill `2 x 2 x 2`, and value 5 of the first replicum becomes configuration 0 of the second | every replicum holds `ord * N` values, or the load fails | medium (not executed) | `Analyze.LoadMixesReplica` | `Analyze.LoadCheckedEntries` |
