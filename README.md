# pyewaste core, modelled in Dafny

pyewaste is an e-waste collection app. Users register an electronic device
through a React form. A FastAPI backend stores it, tags it "reuse" or
"recycle" and serves listings and analytics. A pie chart shows the counts.
This project models the five pieces of that app that hold logic of their own,
and proves what they promise.

- `pie_chart.dfy` (module `PieChart`): the `PieChart` component. It clamps
  slice values, totals them, allocates angular sectors with a running cursor
  in `Render`, draws a full sector as a circle and anything else as an SVG arc
  path (the `A` command of section 8.3.8 of SVG 1.1), and builds the legend.
  The chart keeps the arc's sweep flag as the component writes it; the
  corrected arc of "## Findings" is stated beside it.
  Angles are exact reals; a boundary point is the symbolic
  `PolarPoint(cx, cy, r, angle)`.
- `ewaste_store.dfy` (module `EwasteStore`): the route handlers of
  `backend/routers/ewaste.py` over an `ItemStore` object. The store holds the
  item rows in row-id order and the users by id. The handlers are:
  - add, with its tag and price decision;
  - the optional filters;
  - the per-user list;
  - the two user joins (all items and reusable items);
  - the analytics counters and their error branch;
  - delete.
- `image_handler.dfy` (module `ImageHandler`) with `decimal.dfy` (module `Decimal`):
  `save_image`. It builds the timestamp, sanitises the name, forms the stored
  name and returns the path, or fails when the stored name points into a
  sub-directory that does not exist.
- `ewaste_image.dfy` (module `EwasteImage`): the `EwasteImage` component. It
  applies the null guard, extracts the last path segment and builds the URL.
- `upload_round_trip.dfy` (module `UploadRoundTrip`): how the path returned by
  `save_image` and the URL built by `EwasteImage` fit together.
- `add_ewaste.dfy` (module `AddEwastePage`): the `AddEwaste` form. It models
  the form state as a class, the setters wired to its inputs, and `submit`.
  `submit` refuses a working device without an image, then builds the
  `FormData` entries in append order.
- `wrappers.dfy` (module `Wrappers`): `Option` and `Result`.

Parameters stand in for what the code reads from outside:
- the clock reading of `save_image` is a `DateTime`;
- the image-analysis service is a function `analyze`;
- an exception raised inside `analytics` is `failure`;
- `API_BASE` is `apiBase`;
- the settled result of `api.addEwaste` is an `ApiOutcome`.

## Model

| member | source | states |
|---|---|---|
| PieChart.Clamp | frontend/src/components/PieChart.tsx:34 | `Math.max(0, v)`: non-negative, not below v, and either v or 0 |
| PieChart.Total | frontend/src/components/PieChart.tsx:24 | The clamped total is never negative, and it is 0 exactly when no slice has a positive value |
| PieChart.TotalMonotone | frontend/src/components/PieChart.tsx:24 | The clamped total of a prefix never exceeds that of a longer prefix |
| PieChart.TotalOfSinglePositive | frontend/src/components/PieChart.tsx:24 | When only one slice is positive, the total is that slice's value |
| PieChart.ColorOf | frontend/src/components/PieChart.tsx:43 | A present, non-empty colour is used; otherwise the palette entry at the slice's input index mod 4 |
| PieChart.Sweep | frontend/src/components/PieChart.tsx:34-36 | A slice advances the cursor by a non-negative amount; the amount is zero exactly when its clamped value or the total is 0 |
| PieChart.CursorAt | frontend/src/components/PieChart.tsx:37-39 | The running cursor is never negative |
| PieChart.DescribeArc | frontend/src/components/PieChart.tsx:13-21 | As written: the line goes to the end angle's point and the arc command ends at the start angle's point. The sweep flag is '1'. The large-arc flag is '0' iff the absolute span is at most 180 |
| PieChart.DescribeArcOffCircle | frontend/src/components/PieChart.tsx:14-19 | For any sector that is not a half turn, the as-written arc travels 360 - span degrees and its flags do not select the centred circle |
| PieChart.QuarterSliceOffCircle | frontend/src/components/PieChart.tsx:14-19 | The 0-90 degree sector of a size-160 chart gets `A 76 76 0 0 1`, which is not on the centred circle |
| PieChart.DescribeWedge | frontend/src/components/PieChart.tsx:13-21 | Corrected arc (sweep '0'): it travels exactly the sector's span, on the centred circle |
| PieChart.SectorAt | frontend/src/components/PieChart.tsx:34-47 | A slice draws nothing iff its clamped value or the total is 0; a drawn sector has start < end. Its cursor, shape and colour are stated by SectorAtCursor, CircleExactlyWhenFull, PathFlags and ShapeMatchesLegend |
| PieChart.SectorBounds | frontend/src/components/PieChart.tsx:36-39 | A drawable slice's range from the cursor to the cursor plus its share lies within [0, 360] |
| PieChart.Chart | frontend/src/components/PieChart.tsx:33-48 | There is one entry per input slice, in input order, each the slice's drawn sector or nothing |
| PieChart.Legend | frontend/src/components/PieChart.tsx:51-56 | There is one row per input slice, in input order, with the resolved colour, the label and the unclamped value |
| PieChart.Render | frontend/src/components/PieChart.tsx:23-58 | The component's loop with `angle += portion` yields the clamped total, exactly the chart's sectors (with the component's sweep flag '1'), and the legend |
| PieChart.SectorAtCursor | frontend/src/components/PieChart.tsx:34-39 | A slice is skipped iff its clamped value or the total is 0. A drawn slice starts at the cursor and ends at the next cursor, spanning value / total * 360 |
| PieChart.CursorFlat | frontend/src/components/PieChart.tsx:34-35 | Skipped slices leave the cursor unchanged |
| PieChart.Contiguous | frontend/src/components/PieChart.tsx:36-39 | Consecutive drawn sectors meet: the next one starts where the previous ended |
| PieChart.FirstDrawnStartsAtZero | frontend/src/components/PieChart.tsx:25 | The first drawn sector starts at angle 0 |
| PieChart.CursorClosedForm | frontend/src/components/PieChart.tsx:36-39 | The cursor before slice i equals the clamped total of the slices before i, as a share of 360 |
| PieChart.FullTurn | frontend/src/components/PieChart.tsx:36-39 | With a positive total, the final cursor is exactly 360 |
| PieChart.DrawnSweepIsCursor | frontend/src/components/PieChart.tsx:36-39 | The spans of the drawn sectors among the first i slices add up to the cursor before slice i |
| PieChart.DrawnSectorsFillTurn | frontend/src/components/PieChart.tsx:36-39 | With a positive total, the drawn sectors partition the turn: their spans add up to 360 |
| PieChart.ZeroTotalDrawsNothing | frontend/src/components/PieChart.tsx:35 | With a zero total, no slice is drawn |
| PieChart.SectorWithinTurn | frontend/src/components/PieChart.tsx:36-39 | Every drawn sector satisfies 0 <= start < end <= 360 |
| PieChart.CircleExactlyWhenFull | frontend/src/components/PieChart.tsx:42-47 | A drawn sector is a circle iff it spans at least 359.999; the circle is centred at (size/2, size/2) with radius size/2 - 4. A path uses the slice's colour and a white stroke |
| PieChart.SinglePositiveIsCircle | frontend/src/components/PieChart.tsx:26-43 | When exactly one slice is positive, it is the only shape, and it is a centred circle of radius size/2 - 4 |
| PieChart.PathFlags | frontend/src/components/PieChart.tsx:13-19 | A path sector uses the large arc iff it spans more than 180. Its line goes to the end point and its arc to the start point. It spans less than 359.999. The sweep flag is '1', so unless the sector is a half turn the arc travels the other 360 - span degrees and is not on the centred circle |
| PieChart.CorrectedSweepOnCircle | frontend/src/components/PieChart.tsx:19 | The chart as intended: a path sector with sweep flag '0' instead is the corrected wedge arc, within [0, 360], on the centred circle, travelling exactly the sector's span |
| PieChart.ShapeMatchesLegend | frontend/src/components/PieChart.tsx:43-53 | A drawn shape's fill equals its legend row's colour, indexed by input position |
| EwasteStore.NewItem | backend/routers/ewaste.py:23-47 | Add fails with 500 when the upload's write fails (its name holds '/' or '\'), before any other check. Otherwise it fails with 400 "Price is required for working items" iff the item works and its price is missing or 0. A working item is tagged "reuse", keeps its price and is not analysed. A non-working item is tagged "recycle" and has no price; it is analysed iff it has an image. The other fields are copied, and the image path is the saved upload path |
| EwasteStore.NextRowId | backend/models/ewaste_model.py:8 | The new primary key exceeds every existing id and is one more than the largest, or 1 for an empty table |
| EwasteStore.AddKeepsIdsUnique | backend/routers/ewaste.py:38-50 | Inserting the new row keeps ids unique |
| EwasteStore.AddKeepsIdsIncreasing | backend/routers/ewaste.py:38-50 | The new row goes after every existing row in row-id order |
| EwasteStore.IncreasingIdsUnique | backend/models/ewaste_model.py:8 | Rows in row-id order have unique ids |
| EwasteStore.ItemStore.constructor | backend/models/ewaste_model.py:6-16 | An empty item table over a user table keyed by user id |
| EwasteStore.ItemStore.Add | backend/routers/ewaste.py:13-51 | On success the new row is appended with the next row id; on the 500 or 400 error nothing is stored. Rows stay in row-id order |
| EwasteStore.Where | backend/routers/ewaste.py:55 | A query filter keeps exactly the rows that satisfy its condition, and never more rows than it was given |
| EwasteStore.WhereCounts | backend/routers/ewaste.py:55 | A filter keeps each matching row exactly as many times as the input holds it, and no other row |
| EwasteStore.UserItems | backend/routers/ewaste.py:53-56 | Exactly the rows of the given user, each as many times as stored |
| EwasteStore.MatchesFilter | backend/routers/ewaste.py:87-90 | An absent or empty filter imposes nothing; a matching row carries the given tag and the given category; with only one filter given, a row matches iff it carries that value |
| EwasteStore.FilterItems | backend/routers/ewaste.py:86-91 | A row is returned iff it is stored and matches the tag when a tag is given and the category when one is given, each as many times as stored. With neither filter, every row is returned |
| EwasteStore.ListingOf | backend/routers/ewaste.py:184-196 | A listing carries the row's id, owner, category, product name, working flag, image path, tag and analysis, and the owner's name; the price and phone only in the reusable listing |
| EwasteStore.Join | backend/routers/ewaste.py:62-77 | The joined listing is no longer than the rows it lists |
| EwasteStore.JoinIsFilterThenList | backend/routers/ewaste.py:62-77 | The join keeps the rows whose owner exists, in store order, and lists each with its owner's data |
| EwasteStore.ItemStore.AllItems | backend/routers/ewaste.py:58-77 | The loop returns the join of all rows with their owners, without price or phone |
| EwasteStore.ItemStore.ReusableItems | backend/routers/ewaste.py:173-199 | The loop returns the join of the rows tagged "reuse" with their owners, including price and phone |
| EwasteStore.ReusableListingsAreReuse | backend/routers/ewaste.py:178-199 | Every reusable listing comes from a stored row tagged "reuse" whose owner exists. It carries that row's price and the owner's name and phone |
| EwasteStore.TagOf | backend/routers/ewaste.py:131 | The counted tag is never empty: the row's tag, or "unknown" when it is null or empty |
| EwasteStore.CategoryOf | backend/routers/ewaste.py:139 | The counted category is never empty: the row's category, or "unknown" when it is empty |
| EwasteStore.Tags | backend/routers/ewaste.py:131 | Each item's tag, with a null or empty tag read as "unknown" |
| EwasteStore.Categories | backend/routers/ewaste.py:139 | Each item's category, with an empty category read as "unknown" |
| EwasteStore.Counts | backend/routers/ewaste.py:128-129 | A count map has exactly the fixed key list as its keys |
| EwasteStore.CountsSnoc | backend/routers/ewaste.py:132-133 | One loop step bumps the value's key if it is one of the keys and otherwise changes nothing |
| EwasteStore.RowOf | backend/routers/ewaste.py:108-122 | An analytics row uses the counted tag and category, `product_name or ""`, and the owner's name iff the owner exists |
| EwasteStore.Rows | backend/routers/ewaste.py:101-123 | There is one analytics row per item, in order, with the defaults for missing values |
| EwasteStore.ItemStore.TagCounts | backend/routers/ewaste.py:127-133 | The tag loop yields the count of each of reuse, resell, recycle and unknown among the items' tags |
| EwasteStore.ItemStore.CategoryCounts | backend/routers/ewaste.py:135-141 | The category loop yields the count of each of consumer, utility and unknown among the items' categories |
| EwasteStore.ItemStore.AnalyticsRows | backend/routers/ewaste.py:101-123 | The `all_items` loop yields one row per item |
| EwasteStore.ItemStore.Analytics | backend/routers/ewaste.py:94-156 | Without an exception: total is the number of rows, plus both count maps and the rows. With one: the error report |
| EwasteStore.TagCountsSum | backend/routers/ewaste.py:128-133 | The four tag counts sum to at most the number of items, and to exactly that number when every tag is a known key |
| EwasteStore.CategoryCountsSum | backend/routers/ewaste.py:136-141 | The three category counts sum to at most the number of items, and to exactly that number when every category is a known key |
| EwasteStore.SumCountsPlusOutside | backend/routers/ewaste.py:130-133 | For distinct keys, every value is counted under exactly one key or under none |
| EwasteStore.EmptyReportIsZero | backend/routers/ewaste.py:149-156 | The error report has total 0, all-zero maps over exactly the fixed keys, no rows, and the error message |
| EwasteStore.FindId | backend/routers/ewaste.py:207 | Returns nothing iff no row has the id; otherwise the position of the first row with it |
| EwasteStore.RemoveAt | backend/routers/ewaste.py:210 | Removing a position leaves one row fewer, with the rows before and after it in order |
| EwasteStore.DeleteRemovesExactlyOne | backend/routers/ewaste.py:207-212 | With unique ids, deleting removes exactly the found row. No row with the id remains, every other row stays, the multiset loses just that row, and ids stay unique |
| EwasteStore.RemoveAtKeepsOthers | backend/routers/ewaste.py:210 | Every row other than the removed one stays |
| EwasteStore.RemoveAtMultiset | backend/routers/ewaste.py:210 | The rows before equal the rows after plus the removed one |
| EwasteStore.RemoveAtUnique | backend/routers/ewaste.py:210 | With unique ids, the removed id is gone and ids stay unique |
| EwasteStore.RemoveAtIncreasing | backend/routers/ewaste.py:210 | Removing a row keeps the others in row-id order |
| EwasteStore.ItemStore.Delete | backend/routers/ewaste.py:204-212 | 404 "Item not found" iff no row has the id, leaving the rows unchanged; otherwise exactly that row is removed. Rows stay in row-id order |
| Decimal.Padded | backend/utils/image_handler.py:11 | A zero-padded field has exactly the given width, is all digits, and denotes the number |
| Decimal.IntToString | frontend/src/pages/AddEwaste.tsx:29 | For integer ids within JavaScript's safe-integer range, `String(n)` is the decimal digits of n, preceded by '-' when n is negative |
| ImageHandler.Timestamp | backend/utils/image_handler.py:11 | `%Y%m%d%H%M%S%f` gives 20 digits |
| ImageHandler.Replace | backend/utils/image_handler.py:13 | A one-character replace keeps the length and swaps exactly the matching characters |
| ImageHandler.SafeName | backend/utils/image_handler.py:13 | The sanitised name is as long as the upload's name and has no space and no backslash |
| ImageHandler.StoredName | backend/utils/image_handler.py:14 | The stored name is 20 digits, "_", then the sanitised name |
| ImageHandler.SavedPath | backend/utils/image_handler.py:20 | The returned path starts with "/uploads/" and is 30 characters longer than the upload's name |
| ImageHandler.SaveImage | backend/utils/image_handler.py:9-20 | The write fails iff the uploaded name holds a '/' or a '\'; otherwise the returned path is the saved path |
| ImageHandler.SlashInStoredName | backend/utils/image_handler.py:13-16 | The stored name holds a '/' iff the uploaded name holds a separator |
| ImageHandler.SafeNameAroundBackslash | backend/utils/image_handler.py:13 | A backslash in the uploaded name becomes a '/' in the sanitised name |
| ImageHandler.SavedPathIsStoredName | backend/utils/image_handler.py:14-20 | The returned path is "/uploads/" + timestamp + "_" + safe name; the final replace changes nothing, and the path holds no backslash |
| ImageHandler.SavedPathShape | backend/utils/image_handler.py:11-20 | Every returned path is "/uploads/", 20 digits, "_", then the sanitised name, with length 30 + the length of the upload's name |
| EwasteImage.LastSegment | frontend/src/components/EwasteImage.tsx:13 | The extracted name is a suffix of the path with no '/' or '\\' in it, preceded by a separator unless it is the whole path |
| EwasteImage.LastSegmentUnique | frontend/src/components/EwasteImage.tsx:13 | Those three facts determine the extracted name |
| EwasteImage.NoSeparator | frontend/src/components/EwasteImage.tsx:13 | A path with no separator is its own name |
| EwasteImage.TrailingSeparator | frontend/src/components/EwasteImage.tsx:13 | A path ending in a separator yields the empty name |
| EwasteImage.AfterSeparator | frontend/src/components/EwasteImage.tsx:13-15 | Whatever precedes the last separator is dropped: dir + sep + f yields f when f has no separator |
| EwasteImage.ImageUrl | frontend/src/components/EwasteImage.tsx:10-15 | There is no URL iff the path is null or empty; otherwise the URL is API_BASE + "/uploads/" + the extracted name |
| EwasteImage.Render | frontend/src/components/EwasteImage.tsx:9-21 | Nothing is rendered iff there is no URL; otherwise an image with that URL, whose alt is the product name, or "Product image" when the name is null or empty |
| UploadRoundTrip.SavedPathServesStoredFile | backend/utils/image_handler.py:14-20 | When the uploaded name has no '/' or '\\', the image URL string is API_BASE + "/uploads/" + the stored name |
| UploadRoundTrip.StoredImageIsServed | backend/routers/ewaste.py:24-25 | For every item the add route stores with an image, the image URL string is API_BASE + "/uploads/" + the stored name of the upload |
| AddEwastePage.InitialForm | frontend/src/pages/AddEwaste.tsx:5-11 | The initial form has category 'consumer', is_working 'true', and an empty name and price. The user id is present iff the user exists with a non-zero (truthy) id |
| AddEwastePage.NeedsImage | frontend/src/pages/AddEwaste.tsx:21 | Exactly a working device without a file is refused |
| AddEwastePage.UserIdText | frontend/src/pages/AddEwaste.tsx:29 | `String(form.user_id)` is empty iff no user id was set |
| AddEwastePage.ErrorMessage | frontend/src/pages/AddEwaste.tsx:39 | The error is the exception's message when it is non-empty, else 'Failed to add'; it is never empty |
| AddEwastePage.FormDataOf | frontend/src/pages/AddEwaste.tsx:28-34 | Between 3 and 6 entries. user_id comes first and category second, and is_working is third, or fourth after a product name |
| AddEwastePage.KeysOfFormData | frontend/src/pages/AddEwaste.tsx:29-34 | The key sequence is user_id, category, [product_name], is_working, [price], [image] |
| AddEwastePage.FormDataFields | frontend/src/pages/AddEwaste.tsx:31-34 | product_name is sent iff it is non-empty; price iff the device works and a price was typed; image iff a file is selected |
| AddEwastePage.FieldsInAppendOrder | frontend/src/pages/AddEwaste.tsx:29-34 | The fields appear strictly in append order, so each appears at most once |
| AddEwastePage.PiecesAscending | frontend/src/pages/AddEwaste.tsx:29-34 | Every choice of the optional fields gives an ascending key sequence |
| AddEwastePage.NonWorkingHasNoPrice | frontend/src/pages/AddEwaste.tsx:33 | A submission for a non-working device never carries a price |
| AddEwastePage.WorkingSubmissionHasImage | frontend/src/pages/AddEwaste.tsx:21-34 | Every submission sent for a working device carries its image |
| AddEwastePage.AddEwaste.constructor | frontend/src/pages/AddEwaste.tsx:5-14 | The state starts as the initial form, no file, not loading and no error |
| AddEwastePage.AddEwaste.SetCategory | frontend/src/pages/AddEwaste.tsx:76 | Only the category changes |
| AddEwastePage.AddEwaste.SetProductName | frontend/src/pages/AddEwaste.tsx:88 | Only the product name changes |
| AddEwastePage.AddEwaste.SetWorking | frontend/src/pages/AddEwaste.tsx:99-114 | Only is_working changes, to 'true' or 'false' |
| AddEwastePage.AddEwaste.SetPrice | frontend/src/pages/AddEwaste.tsx:138 | Only the price changes |
| AddEwastePage.AddEwaste.SetFile | frontend/src/pages/AddEwaste.tsx:163 | Only the file changes: to the first of the selected files, or none when nothing is selected |
| AddEwastePage.AddEwaste.Submit | frontend/src/pages/AddEwaste.tsx:16-43 | A working device without a file sets the image error and sends nothing. Otherwise it sends exactly the form-data entries. On success it clears the error and calls `onClose` if given; on failure it sets the error message. `loading` ends false and the form is unchanged |

## Left out

- `polarToCartesian`: its trigonometry and the formatting of coordinates into the path string. A point is kept symbolic as centre, radius and angle.
- Floating point: angles and values are exact reals, so the model has no IEEE rounding drift of the accumulated cursor and no NaN or infinite slice values.
- The `size = 160` default parameter: the model always takes `size` explicitly.
- `save_image`: the bytes written, and write failures other than the missing sub-directory (permissions, a full disk), are not modelled. The model assumes the upload directory holds only files, which is all `save_image` ever creates.
- UploadRoundTrip.StoredImageIsServed: the browser's parsing of the URL string is not modelled. A '#' or '?' in the stored name starts a fragment or a query, and '%' starts an escape, so for such names the request need not reach the stored file; both lemmas state the URL string only.
- EwasteStore.ItemStore.Add: when the 400 price check fails, `save_image` has already written the file. That leftover file is not modelled.
- ImageHandler.Timestamp: years before 1000 are not modelled, because `%Y` pads them differently between C libraries.
- SQLAlchemy sessions, `commit` and `refresh`. Persistence is the store object; the id of a new row follows SQLite's rowid rule for an INTEGER PRIMARY KEY.
- EwasteStore.ItemStore.Add: the foreign key on `user_id` is not checked, as SQLite does not enforce it by default.
- The lines after the `try`/`except` in `analytics` (backend/routers/ewaste.py:158-169) can never run. An exception inside `analytics` is a parameter of the method, since no database failure is modelled.
- The debug `print` calls and the re-raise in `get_reusable_items`.
- `analyze_image` (backend/utils/gemini_api.py) is a remote call. It is a function parameter, and its JSON result is an opaque string.
- The response-model serialisation of FastAPI (`EwasteOut`, `EwasteWithUserOut`); listings are Dafny datatypes with those fields.
- The `onError` placeholder swap in `EwasteImage` is a browser event. `API_BASE` comes from a configuration module that is not part of this model, so it is a parameter.
- `api.addEwaste` (frontend/src/services/api.ts) is an HTTP call. Its outcome is a parameter of `Submit`, and the intermediate `loading == true` state while it is pending is not observable in the model.
- AddEwastePage.AddEwaste.Submit: `e.preventDefault()` and React's batching of state updates are not modelled.
- React rendering, the modal markup, routing, authentication, ChartPie (a chart.js wrapper) and the other pages: they hold no logic of their own beyond UI state.

## Findings

| source | as written | input that shows it | evidently intended | confidence | as-written member | corrected member |
|---|---|---|---|---|---|---|
| frontend/src/components/PieChart.tsx:19 | The arc goes from the end angle's point to the start angle's point with sweep flag 1, towards increasing angles, away from the sector. Its large-arc flag is chosen for the sector's own span, so an SVG renderer draws it on the other circle of radius r through the two points. Every sector except a half turn is drawn on the wrong circle: a concave sliver below 180 degrees, the mirrored region above | size 160, slices of value 1 and 3: the first sector 0..90 is `M 80 80 L 156 80 A 76 76 0 0 1 80 4 Z`, an arc centred at (156, 4) | sweep flag 0, so that the arc runs back along the centred circle over exactly the sector's span | medium, not executed | PieChart.DescribeArcOffCircle | PieChart.DescribeWedge |
