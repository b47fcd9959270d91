# Flyby result view

A model of the result side of the Strava Flyby client. Flyby is an endpoint that, for one
activity, returns the requesting `activity`, a list of `matches` (each a pair of an
`otherActivity` dict and a `correlation` dict) and the `athletes` involved. The `Flyby` class
holds that decoded payload in `content` and offers:

- three accessors (`activity`, `matches`, `athletes`);
- `_flatten`, which overlays every match's `correlation` onto its `otherActivity` with
  `dict.update` and collects the merged dicts. It does this **in place**, rewriting the stored
  matches;
- `ids` and `to_json`, which build a pandas DataFrame from the flattened records, optionally
  keep only the rows whose `distance` (meters) exceeds `(1 - tol) * distance * 1000`
  (`distance` in km, `tol` 0.1 by default), and return the `id` column or the rows.

The repository holds the class twice: `flyby/flyby.py`, where `Flyby()` starts empty and `get`
fills `content`, and `flyby.py`, where `Flyby(content)` takes the payload and the `flyby()`
factory fetches it. Everything else is line-for-line the same. So one Dafny class `Flyby`
models both:

- its unnamed constructor is `Flyby()` in both files;
- `WithContent` is `Flyby(content)` in `flyby.py`;
- `Get` is `get` in `flyby/flyby.py`;
- `Fetch` is the `flyby()` factory of `flyby.py`.

The `flyby()` factory of `flyby/flyby.py` (lines 16-22) is `Flyby()` followed by `get`, so the
contracts of the constructor and of `Get` together describe it. Table rows cite
`flyby/flyby.py`. The same code sits in `flyby.py` at these places:

- `to_json`: 57-106;
- `ids`: 109-131;
- `_flatten`: 134-151;
- the accessors: 154-193.

Files:

- `json.dfy`: modules `Json` and `Errors`.
  - `Json` holds decoded JSON values, with `Null` for Python's `None`, and Python truthiness.
  - `Errors` holds the exceptions the code raises and a `Result` type carrying them.
- `flatten.dfy`: module `Flatten`, the `_flatten` loop body and its effect on the stored matches.
- `frame.dfy`: module `Frame`, the DataFrame steps of `ids` and `to_json`.
- `flyby.dfy`: module `FlybyView`, the `Flyby` class, the fetch, and lemmas about whole views.

Modelling choices:

- `content` is any JSON value, with no precondition:
  - the accessors give `None` for falsy content;
  - they raise AttributeError for content that is truthy but not a dict.
- `_flatten` raises on anything it cannot walk, each case as a `Result` error:
  - `None` matches: TypeError;
  - a non-dict match: TypeError;
  - a missing `otherActivity` or `correlation` key: KeyError;
  - a non-dict `otherActivity`: AttributeError.
- When the loop fails part-way, the matches before the failing one stay rewritten. `Rewritten`
  states exactly this.
- The DataFrame has one column per key that some record has. Indexing a missing column raises
  KeyError. `to_json` writes every column of every row, with `null` for a missing cell.

Where the code and its documentation part ways, the model follows the code:

- **Distance bound.** The docstrings (flyby/flyby.py:89-90, 124-125) promise a "+/-" tolerance.
  The mask, however, repeats the same lower bound twice (flyby/flyby.py:101-102, 135-136), so
  there is no upper bound. `Passes` is the mask as written. `PassesBand` is the documented
  band. `BandNarrowerThanMask` proves that the band keeps a subset of what the mask
  keeps, and that for positive distance and tolerance some record passes the mask but not the
  band.
- **Empty view.** A view without a payload does not return an empty id list. `_flatten`
  iterates `None` and raises TypeError (`EmptyView`).
- **No matches.** With an empty match list, `ids()` raises KeyError, because an empty DataFrame
  has no `id` column. `to_json()` returns `[]` in the same case (`EmptyTable`).
- **No range form.** The code has no `(low, high)` range argument and no `InvalidArgument`
  error, so neither is modelled.
- **Mutation.** `_flatten` does mutate the stored payload. Stated by `FlattenOneRecordPerMatch`
  and `FlattenTwice`.

## Model

| member | source | states |
|---|---|---|
| `Flatten.Overlay` | flyby/flyby.py:155 | `dict.update`: the result has every key of either dict; a key in `correlation` takes its value, every other key keeps the `otherActivity` value |
| `Flatten.MergeMatch` | flyby/flyby.py:153-155 | the loop body succeeds exactly on a dict match holding dicts under `otherActivity` and `correlation`, and then yields their overlay |
| `Flatten.MatchList` | flyby/flyby.py:151 | `for m in self.matches`: a list is walked as is; a non-empty result comes only from a list; every failure is TypeError |
| `Flatten.Flattened` | flyby/flyby.py:150-159 | a successful `_flatten` returns as many records as there are matches |
| `Flatten.Rewritten` | flyby/flyby.py:153-157 | the in-place rewrite keeps the number of stored matches |
| `Flatten.FlattenedOk` | flyby/flyby.py:150-159 | `_flatten` succeeds iff every match merges, and then record `i` is match `i` merged (order kept) |
| `Flatten.FlattenedErr` | flyby/flyby.py:151-155 | a failing `_flatten` raises the error of the first match that does not merge |
| `Flatten.RewrittenSpec` | flyby/flyby.py:151-157 | stored match `i` is rewritten iff all earlier matches merged; from the failing match on nothing changes |
| `Flatten.FlattenStep` | flyby/flyby.py:151-157 | one loop iteration appends the merged record and rewrites exactly match `i` |
| `Flatten.FlattenStopsAt` | flyby/flyby.py:151-155 | a failure at match `i`, after all earlier matches merged, is the error `_flatten` raises |
| `Flatten.RewriteStopsAt` | flyby/flyby.py:151-157 | after a failure at match `i`, the stored matches from `i` on are untouched and those before it are rewritten |
| `Flatten.RewrittenAt` | flyby/flyby.py:151-157 | stored match `j` after `_flatten` is rewritten iff every earlier match merged |
| `Flatten.MergeMatchIdempotent` | flyby/flyby.py:153-155 | merging an already rewritten match gives the same record and changes nothing more |
| `Flatten.FlattenIdempotent` | flyby/flyby.py:150-159 | running `_flatten` again on the rewritten matches returns the same result and leaves them unchanged |
| `Flatten.StoredMatchesHoldRecords` | flyby/flyby.py:153-157 | after a successful `_flatten`, each stored match's `otherActivity` is the record returned for it |
| `Flatten.PrefixOkOfPrefix` | flyby/flyby.py:151 | whether the first `i` matches merge depends only on those matches |
| `Frame.Columns` | flyby/flyby.py:132 | a DataFrame built from records has a column exactly for each key some record has |
| `Frame.Filter` | flyby/flyby.py:135-136 | boolean indexing keeps exactly the rows that pass the mask and never adds rows |
| `Frame.Column` | flyby/flyby.py:139 | `df[col].tolist()` has one entry per row: the row's value, or the missing-value placeholder |
| `Frame.Rows` | flyby/flyby.py:114 | `to_json(orient='records')` writes each row once, in order, over all columns |
| `Frame.FilterAppend` | flyby/flyby.py:135-136 | the mask distributes over concatenation, so filtering keeps the rows' relative order |
| `Frame.FilterAllPass` | flyby/flyby.py:135-136 | when every row passes, the filtered table is the table itself |
| `Frame.IdsWithoutDistance` | flyby/flyby.py:132-139 | with no or zero `distance`, `ids` returns every `id` in order whatever `tol` is, or KeyError when no record has an `id` |
| `Frame.SelectWithDistance` | flyby/flyby.py:135-136 | with a truthy `distance`, the rows kept are exactly those whose `distance` is strictly above `(1 - tol) * distance * 1000`, `tol` defaulting to 0.1, with no upper bound |
| `Frame.BoundaryExcluded` | flyby/flyby.py:135 | a record exactly on the bound is excluded: the comparison is strict |
| `Frame.IdsAgreeWithRecords` | flyby/flyby.py:99-139 | for the same arguments, the `ids` list is the `id` column of the `to_json` records, and `to_json` succeeding with an `id` column implies `ids` succeeds |
| `Frame.EmptyTable` | flyby/flyby.py:106-139 | with no records and no distance, `to_json` returns `[]` while `ids` raises KeyError for the missing `id` column |
| `Frame.WiderToleranceKeepsMore` | flyby/flyby.py:135-136 | for a positive distance, a larger `tol` keeps every row that a smaller one keeps |
| `Frame.BandNarrowerThanMask` | flyby/flyby.py:122-136 | the documented `+/- tol` band keeps a subset of what the lower-bound-only mask keeps, and for positive distance and tolerance some record passes the mask but not the band |
| `FlybyView.Flyby.constructor` | flyby/flyby.py:31-33 | a fresh `Flyby()` holds `content == None` |
| `FlybyView.Flyby.WithContent` | flyby.py:44-54 | `Flyby(content)` stores the payload unchanged |
| `FlybyView.Flyby.Get` | flyby/flyby.py:36-62 | a successful response replaces `content` by the decoded body and returns the view itself; otherwise ConnectionError with the status code and `content` unchanged |
| `FlybyView.Fetch` | flyby.py:16-38 | the factory returns a new view over the decoded body, or ConnectionError with the status code |
| `FlybyView.Flyby.Activity` | flyby/flyby.py:162-173 | `None` for falsy content, else `content.get('activity', None)`; fails only when content is truthy and not a dict |
| `FlybyView.Flyby.Matches` | flyby/flyby.py:176-187 | `None` for falsy content, else `content.get('matches', None)`; fails only when content is truthy and not a dict |
| `FlybyView.Flyby.Athletes` | flyby/flyby.py:190-201 | `None` for falsy content, else `content.get('athletes', None)`; fails only when content is truthy and not a dict |
| `FlybyView.Flyby.FlattenMatches` | flyby/flyby.py:142-159 | the loop returns what `_flatten` returns and leaves `content` with its match list rewritten in place as `Rewritten` describes |
| `FlybyView.Flyby.Ids` | flyby/flyby.py:117-139 | `ids` returns the selected `id` column of the flattened records, with the same in-place rewrite of `content` |
| `FlybyView.Flyby.ToJson` | flyby/flyby.py:65-114 | `to_json` without a path returns the selected rows of the flattened records, with the same in-place rewrite of `content` |
| `FlybyView.WalkedList` | flyby/flyby.py:150-151 | the list the loop walks is the stored `matches` list, `_flatten`'s result is determined by it, and only a non-empty stored list is rewritten |
| `FlybyView.StoreStep` | flyby/flyby.py:153-157 | one loop pass collects the next merged record and leaves the payload with exactly match `i` rewritten |
| `FlybyView.EmptyView` | flyby/flyby.py:31-33 | on an empty view all accessors give `None`, while `_flatten`, `ids` and `to_json` raise TypeError |
| `FlybyView.ViewOfPayload` | tests/test_flyby.py:30-39 | a view over a payload with the three keys returns exactly the stored values |
| `FlybyView.FlattenOneRecordPerMatch` | flyby/flyby.py:150-159 | one record per stored match, in order, each the overlay of the match's two dicts; afterwards the stored match holds that record |
| `FlybyView.FlattenTwice` | flyby/flyby.py:150-159 | a second `_flatten` returns the same result and leaves `content` as the first one left it |
| `FlybyView.FlattenTouchesOnlyMatches` | flyby/flyby.py:153-155 | flattening changes no key of `content` other than `matches`, so `activity` and `athletes` read the same |
| `FlybyView.IdsThenToJson` | flyby/flyby.py:99-139 | calling `ids` and then `to_json` on one view with the same arguments gives ids equal to the `id` column of the records, despite the rewrite in between |

## Left out

- HTTP: URL construction, `requests.get`, and the meaning of `r.ok`. `Get` and `Fetch` take
  the response, its `ok` flag, its status and its decoded body as a parameter.
- JSON: `json.loads` of the response body and the JSONDecodeError it can raise are left out.
- File output: `to_json` with a `path_or_buf` writes a file and returns `None`. Only the
  no-path return is modelled.
- The `orient` keyword and the string serialisation of `DataFrame.to_json` are left out. Its
  `json.loads` round trip is taken as returning the rows as JSON records.
- Floating point: distances, `tol` and the `* 1000` scaling are exact reals. Integer and float
  JSON numbers are not told apart.
- Frame.Passes: a non-numeric or `null` distance counts as failing the comparison. pandas may
  instead coerce such a value to NaN or raise TypeError, depending on the column's dtype.
- Frame.Column: a missing `id` cell is given as `Null`. pandas `tolist()` gives NaN there,
  while `to_json` gives `null`.
- Flatten.MergeMatch: a `correlation` that is not a dict counts as TypeError. `dict.update`
  would instead accept an empty string or a list of key/value pairs, and raise ValueError for a
  non-empty string or a list whose items are not pairs.
- FlybyView.Flyby.WithContent: the model copies values, so aliasing is not represented.
  `Flyby(content)` keeps a reference to the caller's dict, so `_flatten` rewrites the caller's
  payload too (flyby.py:54, 145-149). The records `_flatten` returns are the stored
  `otherActivity` dicts themselves (flyby/flyby.py:157), so changing a returned record changes
  the view's content. A payload built by `get` from `json.loads` shares nothing with the caller.
- Frame.IdsAgreeWithRecords and FlybyView.IdsThenToJson hold in the model because a missing
  `id` cell is `Null` in both lists. In the code they hold only when every kept record has an
  `id`: otherwise `ids` gives NaN where `to_json` gives `null`, and the two lists differ.
