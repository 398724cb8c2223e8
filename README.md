# App announcement editor: a Dafny model

This project models the deterministic logic underneath an app-announcement
image editor. The editor is a React application packaged with Tauri. The
repository also holds a legacy vanilla-JavaScript version under `js/` and two
Python build scripts. The model covers seven groups:

- **Icon normaliser** (`advanced_icon_generator.py`): the centre-crop box,
  content size and offset on the 1024 canvas, the "needs rounding" decision
  over an alpha grid, the rounded mask and the mask-multiply paste into the
  canvas, the icon size tables and their write loops, and the Tauri
  configuration check (`icon_generator.dfy`, `icon_names.dfy`,
  `icon_files.dfy`).
- **Asset renamer** (`rename_stickers.py`): the natural sort key, both sort
  orders, and the two-phase rename over a directory modelled as a map from
  names to file identities (`natural_keys.dfy`, `sorting.dfy`,
  `sticker_sort.dfy`, `folder_moves.dfy`, `sticker_renamer.dfy`,
  `sticker_renamer_cases.dfy`).
- **Editor state** (`AppContext.jsx`): the reducer and the initial state,
  with "only this field changes" frame lemmas (`app_state.dfy`).
- **Colour arithmetic**: the legacy `adjustBrightness` and the configuration
  manager (`config_manager.dfy`), and the HSL to hex conversion and the
  colour schemes of `styleConfig.js` (`style_config.dfy`, `hex.dfy`).
- **Catalogues and templates**: stickers, fonts, components, template tables,
  the template element builders and the text style manager
  (`sticker_data.dfy`, `font_data.dfy`, `component_library.dfy`,
  `template_config.dfy`, `template_elements.dfy`, `mobile_templates.dfy`,
  `product_hunt_templates.dfy`, `template_data.dfy`, `style_manager.dfy`).
- **Projects, upload and download**: the project store and its hooks, the
  legacy project list, image validation and compression sizing, and both
  download paths including the PDF pagination loop, and the base64 text the
  store decodes into image bytes and encodes back (`storage.dfy`, `base64.dfy`,
  `use_projects.dfy`, `legacy_projects.dfy`, `images.dfy`, `use_upload.dfy`,
  `legacy_upload.dfy`, `capture.dfy`, `use_download.dfy`,
  `legacy_download.dfy`).
- **Canvas editing**: drag-and-drop reordering, selection and multi-selection
  resize, the export frame, editable text and dynamic components, the image
  sidebar, and the phone and MacBook mock-ups (`draggable.dfy`,
  `selection.dfy`, `export_frame.dfy`, `editable.dfy`,
  `dynamic_component.dfy`, `image_sidebar.dfy`, `phone_model.dfy`,
  `phone_model_2d.dfy`, `macbook_model_2d.dfy`, with the shared
  `model_gestures.dfy`, `pointer.dfy`, `element_ids.dfy` and
  `editor_calls.dfy`).

The shared modules `wrappers.dfy`, `text.dfy`, `js_num.dfy` and
`js_value.dfy` give JavaScript's values, object spread, `Math.round`, `%`,
`parseInt`, white space as `trim()` sees it, and string helpers a meaning in
Dafny.

Pure code is modelled as functions and lemmas. Code that updates state step
by step is modelled as classes:

- Each class has the fields the source updates.
- Each method states its whole new state in its postconditions.
- Loops carry their invariants.

Calls from a component into the editor context, such as `updateElement`,
`updateModelState` and `generateTemplateCode`, are recorded in a sequence
field. They are not executed: a method's postcondition says which calls it
made, in order.

Filesystems, `localStorage` and the Tauri store are maps. Values that come
from the browser are parameters, for example bounding rectangles, `atan2`
angles, file contents and data URLs. Geometry uses `real`, and the integer
pixel and colour arithmetic uses `int`.

## Model

| member | source | states |
|---|---|---|
| IconGenerator.SquareCrop | react-app-announcement/advanced_icon_generator.py:125-133 | a square source is not cropped; otherwise the box is a min(w,h) square lying inside the image |
| IconGenerator.SquareCropCentred | react-app-announcement/advanced_icon_generator.py:128-133 | the two crop margins on each axis differ by at most one pixel |
| IconGenerator.ContentInsideCanvas | react-app-announcement/advanced_icon_generator.py:139-147 | for 0 < ratio <= 1 the `int(1024*ratio)` content square at offset `(1024-content)//2` lies inside the canvas, opposite margins differing by at most 1 |
| IconGenerator.DefaultRatioGeometry | react-app-announcement/advanced_icon_generator.py:108-147 | the default ratio 0.8 gives an 819-pixel content side at offset 102 |
| IconGenerator.RowFlags | react-app-announcement/advanced_icon_generator.py:155 | flag y is set exactly when row y holds a pixel with alpha above 10 |
| IconGenerator.ColFlags | react-app-announcement/advanced_icon_generator.py:155 | flag x is set exactly when column x holds a pixel with alpha above 10 |
| IconGenerator.ContentBoxSpec | react-app-announcement/advanced_icon_generator.py:155-160 | `getbbox` of the thresholded alpha is absent iff no pixel exceeds 10, otherwise it lies in the image, encloses every content pixel and touches content on all four sides |
| IconGenerator.ContentRatioInRange | react-app-announcement/advanced_icon_generator.py:156-160 | the content ratio lies in (0, 1] |
| IconGenerator.FailedCheckRounds | react-app-announcement/advanced_icon_generator.py:151-163 | a grid the corner reads fail on takes the `except` branch and forces rounding |
| IconGenerator.TransparentSourceRounded | react-app-announcement/advanced_icon_generator.py:155-161 | with no pixel above 10 the ratio stays 1.0, so a transparent source is rounded |
| IconGenerator.EdgeToEdgeContentRounded | react-app-announcement/advanced_icon_generator.py:155-161 | content touching the left and right edges spans the side and is rounded |
| IconGenerator.NoRoundingMeansRoomAround | react-app-announcement/advanced_icon_generator.py:153-161 | without rounding some corner alpha is 0 and all content fits in a box narrower than 95% of the side on both axes |
| IconGenerator.RoundedMask | react-app-announcement/advanced_icon_generator.py:100-106 | a size x size mask whose values are only 0 or 255, 255 exactly inside the rounded rectangle of radius `int(size*r)` |
| IconGenerator.MaskedAlpha | react-app-announcement/advanced_icon_generator.py:165-168 | multiplying an alpha by a 0/255 mask never exceeds the alpha, gives 0 under 0 and the alpha under 255 |
| IconGenerator.AlphaOf | react-app-announcement/advanced_icon_generator.py:152 | the alpha channel has the image's shape and each pixel's alpha |
| IconGenerator.MaskedOutKeepsBackground | react-app-announcement/advanced_icon_generator.py:165-169 | with rounding, a canvas pixel whose mask value is 0 keeps the background |
| IconGenerator.OpaqueInsideMaskCopied | react-app-announcement/advanced_icon_generator.py:165-172 | an opaque source pixel inside the mask is copied unchanged |
| IconGenerator.OutsideContentIsBackground | react-app-announcement/advanced_icon_generator.py:142-147 | canvas pixels outside the content square keep `bg_color` |
| IconGenerator.BlendChannelNearest | react-app-announcement/advanced_icon_generator.py:169-172 | a partial mask gives the band value nearest to the exact mix of source and destination, and stays between 0 and 255 |
| IconGenerator.BlendChannelRoundsUp | react-app-announcement/advanced_icon_generator.py:172 | source 1 over destination 0 at mask 128 gives 1: the mix is rounded, not truncated |
| IconGenerator.Paste | react-app-announcement/advanced_icon_generator.py:165-172 | every canvas pixel under the content square is blended with its source pixel through the mask, each band rounded to the nearest value as PIL does; every other pixel is untouched |
| IconGenerator.FixIcon | react-app-announcement/advanced_icon_generator.py:138-172 | an empty content side fails; otherwise a fresh 1024 x 1024 canvas, rounded iff `auto_round and need_round`, equal pixel by pixel to the background with the content pasted through the chosen mask |
| IconGenerator.AnalyzeTransparency | react-app-announcement/advanced_icon_generator.py:12-47 | no alpha band gives no report, a failing corner read gives a failure, and the large-content hint is exactly ratio >= 0.90 |
| IconGenerator.DiagnosisAgreesWithNeedRound | react-app-announcement/advanced_icon_generator.py:12-47 | on the content grid the diagnosis and `need_round` agree: rounding iff square corners or ratio >= 0.95, which also raises the large-content hint |
| IconNames.IconsetNameSide | react-app-announcement/advanced_icon_generator.py:224-235 | reading an iconset name back gives side N for `icon_NxN.png` and 2N for `icon_NxN@2x.png` |
| IconNames.IconsetNameNotIco | react-app-announcement/advanced_icon_generator.py:238-241 | iconset names never end in `.ico`, so every iconset entry is saved as PNG |
| IconNames.IconsetNames16 | react-app-announcement/advanced_icon_generator.py:225-226 | the 16-pixel entry names are `icon_16x16.png` and `icon_16x16@2x.png` |
| IconNames.IconsetNames32 | react-app-announcement/advanced_icon_generator.py:227-228 | the 32-pixel entry names are `icon_32x32.png` and `icon_32x32@2x.png` |
| IconNames.IconsetNames128 | react-app-announcement/advanced_icon_generator.py:229-230 | the 128-pixel entry names are `icon_128x128.png` and `icon_128x128@2x.png` |
| IconNames.IconsetNames256 | react-app-announcement/advanced_icon_generator.py:231-232 | the 256-pixel entry names are `icon_256x256.png` and `icon_256x256@2x.png` |
| IconNames.IconsetNames512 | react-app-announcement/advanced_icon_generator.py:233-234 | the 512-pixel entry names are `icon_512x512.png` and `icon_512x512@2x.png` |
| IconFiles.IcnsEntryName | react-app-announcement/advanced_icon_generator.py:224-235 | entry i of the iconset table is the plain name of its nominal size for even i and the `@2x` name at twice the size for odd i |
| IconFiles.IcnsTableConsistent | react-app-announcement/advanced_icon_generator.py:224-235 | the iconset table has 10 entries and each entry's pixel side is the side its file name announces |
| IconFiles.TableFiles | react-app-announcement/advanced_icon_generator.py:198-205 | one file per table entry, in order: ICO for a `.ico` name, PNG of the entry's side otherwise |
| IconFiles.OverlayKeys | react-app-announcement/advanced_icon_generator.py:198-205 | writing entries adds exactly their names to the directory |
| IconFiles.OverlayKeeps | react-app-announcement/advanced_icon_generator.py:198-205 | a file no entry names is left as it was |
| IconFiles.OverlayValues | react-app-announcement/advanced_icon_generator.py:198-205 | every newly written file holds what one of the entries produced |
| IconFiles.WriteTable | react-app-announcement/advanced_icon_generator.py:198-210 | the loop leaves the directory with every entry written in order and collects the names analysed, as the specification functions define them |
| IconFiles.IconsDirectory.WriteRequiredIcons | react-app-announcement/advanced_icon_generator.py:185-210 | writes the five bundle files and analyses the PNGs of 256, 512 or 1024 pixels; the iconset is untouched |
| IconFiles.IconsDirectory.WriteIconset | react-app-announcement/advanced_icon_generator.py:219-243 | creates the iconset directory (keeping what it held) and writes the ten PNGs, analysing those of 512 and 1024 pixels |
| IconFiles.IconsDirectory.BuildIcns | react-app-announcement/advanced_icon_generator.py:245-274 | the old `icon.icns` is removed first; only a successful `iconutil` writes a new one and removes the iconset |
| IconFiles.RequiredNamesDistinct | react-app-announcement/advanced_icon_generator.py:189-195 | the five bundle file names are distinct |
| IconFiles.RequiredEntries | react-app-announcement/advanced_icon_generator.py:189-205 | the bundle files are 32, 128 and 256-pixel PNGs, a 1024-pixel `icon.png` and a 256-pixel ICO |
| IconFiles.RequiredIconsAnalysed | react-app-announcement/advanced_icon_generator.py:208-210 | of the bundle files only `128x128@2x.png` and `icon.png` are analysed (the 256-pixel ICO is not a PNG) |
| IconFiles.IconsetFiles | react-app-announcement/advanced_icon_generator.py:238-241 | every iconset file is a PNG whose side is the one its name announces |
| IconFiles.IcnsEntryFile | react-app-announcement/advanced_icon_generator.py:238-241 | iconset entry i is written as a PNG of its own side |
| IconFiles.IconsetAnalysed | react-app-announcement/advanced_icon_generator.py:242-243 | the last three iconset entries (512, 512 and 1024 pixels) are the ones analysed |
| IconFiles.VerifyTauriConfig | react-app-announcement/advanced_icon_generator.py:276-296 | a missing key gives an empty icon list; the warnings issued are `Warnings` of the list: one per listed `.icns` entry not containing `icon.icns`, in list order, repeats included; the check reports whether `icons/icon.icns` is listed |
| IconFiles.Warnings | react-app-announcement/advanced_icon_generator.py:287-290 | the warnings are never more than the icons, and an icon is warned about exactly when it is listed and is a `.icns` not containing `icon.icns` |
| IconFiles.WarningsConcat | react-app-announcement/advanced_icon_generator.py:287-290 | the warnings of a list are those of its first part followed by those of the rest, so they keep the list's order |
| IconFiles.RepeatedIconWarnedTwice | react-app-announcement/advanced_icon_generator.py:287-290 | an icon listed twice is warned about twice |
| NaturalKeys.DigitSplit | react-app-announcement/rename_stickers.py:17 | `re.split('([0-9]+)', s)` has an odd number of parts |
| NaturalKeys.DigitSplitShape | react-app-announcement/rename_stickers.py:17 | the parts alternate between digit-free text and non-empty digit runs, with no two digit runs adjacent |
| NaturalKeys.DigitSplitHead | react-app-announcement/rename_stickers.py:17 | the leading text part is empty only for the empty name |
| NaturalKeys.DigitSplitJoins | react-app-announcement/rename_stickers.py:17 | joining the parts gives back the name: the split loses nothing |
| NaturalKeys.DigitSplitThree | react-app-announcement/rename_stickers.py:17 | a text, one digit run and a digit-free suffix split into exactly those three parts |
| NaturalKeys.NaturalSortKey | react-app-announcement/rename_stickers.py:14-17 | the key has odd length, with integers at the odd positions and lower-cased text at the even ones |
| NaturalKeys.KeyOfThree | react-app-announcement/rename_stickers.py:14-17 | the key of `text + digits + suffix` is lower(text), the digits' value, lower(suffix) |
| NaturalKeys.KeyOfCaseFree | react-app-announcement/rename_stickers.py:14-17 | a name without digits or upper-case letters is its own single-token key |
| NaturalKeys.KeyIgnoresCase | react-app-announcement/rename_stickers.py:14-17 | lower-casing the name first gives the same key: text comparison ignores case |
| NaturalKeys.DigitSplitLower | react-app-announcement/rename_stickers.py:16-17 | lower-casing commutes with the split, part by part |
| NaturalKeys.StrLessIrreflexive | react-app-announcement/rename_stickers.py:58 | Python string `<` is irreflexive |
| NaturalKeys.StrLessTransitive | react-app-announcement/rename_stickers.py:58 | Python string `<` is transitive |
| NaturalKeys.StrLessTotal | react-app-announcement/rename_stickers.py:58 | two different strings are ordered one way or the other |
| NaturalKeys.StrLessCommonPrefix | react-app-announcement/rename_stickers.py:58 | a shared prefix does not decide a string comparison |
| NaturalKeys.KeyLessIrreflexive | react-app-announcement/rename_stickers.py:27 | key-list `<` is irreflexive |
| NaturalKeys.KeyLessTransitive | react-app-announcement/rename_stickers.py:27 | key-list `<` is transitive |
| NaturalKeys.KeyLessTotal | react-app-announcement/rename_stickers.py:27 | two different natural keys are ordered one way or the other |
| NaturalKeys.NumberedKeyOrder | react-app-announcement/rename_stickers.py:14-17 | names of one numbered family order by their numbers, so `arrow_2` precedes `arrow_10` |
| Sorting.DistinctSameElements | react-app-announcement/rename_stickers.py:27-48 | two duplicate-free lists with the same elements are rearrangements of each other |
| Sorting.PermutationDistinct | react-app-announcement/rename_stickers.py:27 | a rearrangement of distinct elements has distinct elements |
| Sorting.InsertPermutes | react-app-announcement/rename_stickers.py:27 | inserting adds exactly one copy of the element |
| Sorting.InsertSorted | react-app-announcement/rename_stickers.py:27 | inserting into an ordered list keeps it ordered |
| Sorting.SortByCorrect | react-app-announcement/rename_stickers.py:27 | `sorted` returns an ordered rearrangement of its input |
| Sorting.InsertStable | react-app-announcement/rename_stickers.py:27 | an inserted element goes ahead of every element it ties with, so among the elements tied with any key it comes first exactly when it ties too |
| Sorting.SortByStable | react-app-announcement/rename_stickers.py:27 | `sorted` is stable: for every key, the elements that tie with it come out in the order they went in |
| Sorting.SortByPair | react-app-announcement/rename_stickers.py:27 | two elements already in order stay in order |
| Sorting.SortedUnique | react-app-announcement/rename_stickers.py:27 | with no ties there is only one ordered rearrangement |
| StickerSort.BeforeIrreflexive | react-app-announcement/rename_stickers.py:27-58 | no name sorts before itself under either key |
| StickerSort.BeforeTransitive | react-app-announcement/rename_stickers.py:27-58 | both keys' orders are transitive |
| StickerSort.BeforeTotal | react-app-announcement/rename_stickers.py:27-58 | of two names one sorts first or their keys are equal |
| StickerSort.LeTotal | react-app-announcement/rename_stickers.py:27-58 | "may stay in front" is total |
| StickerSort.LeTransitive | react-app-announcement/rename_stickers.py:27-58 | "may stay in front" is transitive |
| StickerSort.BeforeIsStrictWeakOrder | react-app-announcement/rename_stickers.py:27-58 | the natural key and the plain name both give `sorted` a strict weak order |
| NaturalKeys.TokenLessIrreflexive | react-app-announcement/rename_stickers.py:14-17 | no key part sorts before itself |
| NaturalKeys.TokenLessTransitive | react-app-announcement/rename_stickers.py:14-17 | the order of key parts (numbers by value, text by code points) is transitive |
| NaturalKeys.TokenLessTotal | react-app-announcement/rename_stickers.py:14-17 | of two different key parts one sorts first |
| FolderMoves.RenameStep | react-app-announcement/rename_stickers.py:35-41 | a rename succeeds exactly when its source exists |
| FolderMoves.RunPlanStuck | react-app-announcement/rename_stickers.py:33-41 | once a rename has failed the rest of the loop does not run |
| FolderMoves.RunFreshMoves | react-app-announcement/rename_stickers.py:33-41 | renames whose sources exist, whose targets are free and which use no name twice all succeed and move exactly the named files |
| FolderMoves.ComposeMoves | react-app-announcement/rename_stickers.py:31-41 | two rounds of such renames, the second taking the first's targets, move each original name straight to its final name |
| FolderMoves.MovedInPlace | react-app-announcement/rename_stickers.py:33-41 | a plan whose every rename keeps the name changes nothing |
| FolderMoves.MovedPermutes | react-app-announcement/rename_stickers.py:31-41 | renames only move files between names: the same identities are stored, each still under one name |
| StickerRenamer.SvgNames | react-app-announcement/rename_stickers.py:27-84 | the names kept are exactly the listed names with suffix `.svg` |
| StickerRenamer.SvgNamesDistinct | react-app-announcement/rename_stickers.py:27-58 | a directory listing yields each `.svg` name once |
| StickerRenamer.SortedSvgsFacts | react-app-announcement/rename_stickers.py:27-58 | the sorted file list holds every `.svg` of the directory exactly once |
| StickerRenamer.Phase1 | react-app-announcement/rename_stickers.py:33-36 | the i-th file (from 1) is renamed to `temp_<prefix>_<i>.svg` |
| StickerRenamer.Phase2 | react-app-announcement/rename_stickers.py:39-41 | the i-th temporary name is renamed to `<prefix>_<i>.svg` |
| StickerRenamer.FinalPlan | react-app-announcement/rename_stickers.py:19-48 | what the two phases are meant to do: the i-th file straight to `<prefix>_<i>.svg` |
| StickerRenamer.StickerFolder.Rename | react-app-announcement/rename_stickers.py:35-41 | `Path.rename`: fails on a missing source, otherwise moves the file and replaces any file at the target |
| StickerRenamer.StickerFolder.RenameToTemporary | react-app-announcement/rename_stickers.py:31-36 | the first loop performs the phase-1 renames in order and records each temporary name with its number |
| StickerRenamer.StickerFolder.RenameToFinal | react-app-announcement/rename_stickers.py:38-41 | the second loop performs the phase-2 renames in order, stopping at the first missing temporary name |
| StickerRenamer.StickerFolder.RenameAll | react-app-announcement/rename_stickers.py:19-76 | a missing directory renames nothing; otherwise the directory is the result of both phases and the count is the number of `.svg` files, or a rename raised |
| StickerRenamer.StickerFolder.RenameArrows | react-app-announcement/rename_stickers.py:19-48 | `rename_arrows`: natural order, names `arrow_<i>.svg` |
| StickerRenamer.StickerFolder.RenameInfographic | react-app-announcement/rename_stickers.py:50-76 | `rename_infographic`: plain-name order, names `infographic_<i>.svg` |
| StickerRenamer.StickerFolder.RenameAllGuarded | react-app-announcement/rename_stickers.py:19-48 | with a check for an existing temporary name the renamer never fails part-way: it refuses exactly when a temporary name is taken, and otherwise moves the i-th file to its final name |
| StickerRenamer.StickerFolder.CheckCategory | react-app-announcement/rename_stickers.py:78-95 | a missing directory gives 0; otherwise the `.svg` count, and conformance iff every `.svg` name matches `^<prefix>_\d+\.svg$` (vacuously for none) |
| StickerRenamer.TempNameInjective | react-app-announcement/rename_stickers.py:34 | different numbers give different temporary names |
| StickerRenamer.FinalNameInjective | react-app-announcement/rename_stickers.py:40 | different numbers give different final names |
| StickerRenamer.FinalNotTemp | react-app-announcement/rename_stickers.py:34-40 | no final name is a temporary name |
| StickerRenamer.NamesAreSvg | react-app-announcement/rename_stickers.py:34-40 | temporary and final names have suffix `.svg` |
| StickerRenamer.SafeTwoPhase | react-app-announcement/rename_stickers.py:31-41 | when no temporary name is taken beforehand, both phases succeed and move the i-th file to `<prefix>_<i>.svg` |
| StickerRenamer.SafeRenameResult | react-app-announcement/rename_stickers.py:19-48 | after a safe rename the same file identities are stored, the i-th sorted file is `<prefix>_<i>.svg`, the `.svg` names are exactly `<prefix>_1..n`, and other names are untouched |
| StickerRenamer.SvgNamesAreFinal | react-app-announcement/rename_stickers.py:27-41 | every `.svg` left is a final name and every non-`.svg` file keeps its name and content |
| StickerRenamer.FinalNameMatches | react-app-announcement/rename_stickers.py:40-110 | every final name matches the conformance pattern |
| StickerRenamer.RenamedFolderConforms | react-app-announcement/rename_stickers.py:19-95 | a directory renamed safely passes `check_category` |
| StickerRenamerCases.ArrowKey | react-app-announcement/rename_stickers.py:14-17 | the natural key of `arrow_<k>.svg` is `['arrow_', k, '.svg']` |
| StickerRenamerCases.ArrowsInNumericOrder | react-app-announcement/rename_stickers.py:14-27 | `arrow_i.svg` sorts before `arrow_j.svg` iff i < j |
| StickerRenamerCases.ArrowNamesStrictlySorted | react-app-announcement/rename_stickers.py:27 | `arrow_1..n` are strictly ordered by the natural key |
| StickerRenamerCases.ArrowsSortNumerically | react-app-announcement/rename_stickers.py:27 | a directory whose `.svg` files are `arrow_1..n` sorts into numeric order |
| StickerRenamerCases.ArrowsIdempotent | react-app-announcement/rename_stickers.py:19-48 | `rename_arrows` on a directory already holding `arrow_1..n` leaves it unchanged |
| StickerRenamerCases.InfographicTextOrder | react-app-announcement/rename_stickers.py:58 | the plain-name order puts `infographic_10.svg` before `infographic_2.svg` |
| StickerRenamerCases.TemporaryNameOverwritten | react-app-announcement/rename_stickers.py:31-41 | `a.svg` next to `temp_arrow_1.svg`: phase 1 overwrites the second file, leaving one file, and phase 2 fails |
| StickerRenamerCases.OverwriteOrder | react-app-announcement/rename_stickers.py:27 | `a.svg` sorts before `temp_arrow_1.svg` in natural order |
| StickerRenamerCases.OverwriteFirstPhase | react-app-announcement/rename_stickers.py:31-36 | renaming `a.svg` to `temp_arrow_1.svg` replaces the file already there, so the first phase ends with the single `temp_arrow_2.svg` |
| StickerRenamerCases.OverwriteSecondPhase | react-app-announcement/rename_stickers.py:38-41 | the second phase then fails on the missing `temp_arrow_1.svg` |
| StickerRenamerCases.OverwriteBothPhases | react-app-announcement/rename_stickers.py:31-41 | a failing second phase makes the whole rename fail |
| AppState.WithoutId | react-app-announcement/src/context/AppContext.jsx:110-114 | the filtered project list is never longer than the original |
| AppState.UpdateMergesRecord | react-app-announcement/src/context/AppContext.jsx:38-52 | UPDATE_APP_INFO, UPDATE_DESIGN and UPDATE_DOWNLOADS merge the payload over that one sub-record; other keys of the record and every other field are unchanged |
| AppState.UpdateIdempotent | react-app-announcement/src/context/AppContext.jsx:38-52 | merging the same payload twice is merging it once |
| AppState.SetReplacesField | react-app-announcement/src/context/AppContext.jsx:53-104 | SET_SCREEN_IMAGE, SET_CURRENT_TAB and SET_PROJECTS store the payload in exactly one field |
| AppState.ToggleFlipsFlag | react-app-announcement/src/context/AppContext.jsx:63-77 | each TOGGLE_* action stores the negation of one flag and changes nothing else |
| AppState.ToggleTwice | react-app-announcement/src/context/AppContext.jsx:63-77 | on a boolean flag the same toggle twice restores the original state |
| AppState.SaveDialogIdempotent | react-app-announcement/src/context/AppContext.jsx:78-87 | OPEN_SAVE_DIALOG and CLOSE_SAVE_DIALOG set `saveDialogOpen` to true or false whatever it was, changing nothing else, and are idempotent |
| AppState.ConfirmDialogFields | react-app-announcement/src/context/AppContext.jsx:88-99 | OPEN_CONFIRM_DIALOG sets `confirmDialogOpen` and `projectToDelete = payload`; CLOSE_CONFIRM_DIALOG resets them to false and null; nothing else changes |
| AppState.LoadOverridesKeys | react-app-announcement/src/context/AppContext.jsx:115-119 | LOAD_STATE overrides exactly the payload's keys and keeps every other field |
| AppState.UnknownUnchanged | react-app-announcement/src/context/AppContext.jsx:120-121 | an action of any other type returns the state unchanged |
| AppState.AddAppends | react-app-announcement/src/context/AppContext.jsx:105-109 | ADD_PROJECT grows the list by one, the old list is a prefix, the payload is last, nothing else changes |
| AppState.ProjectsNotArray | react-app-announcement/src/context/AppContext.jsx:105-114 | without an array of projects, DELETE_PROJECT always throws (`filter` is missing), and ADD_PROJECT throws exactly when `projects` is not a string either (not iterable) |
| AppState.AddToStringSpreads | react-app-announcement/src/context/AppContext.jsx:105-109 | ADD_PROJECT on a string `projects` does not throw: the list becomes the string's characters, each a one-character string, followed by the payload, and nothing else changes |
| JsValue.SpreadChars | react-app-announcement/src/context/AppContext.jsx:108 | spreading a string gives one one-character string per character, in order |
| AppState.WithoutIdMembers | react-app-announcement/src/context/AppContext.jsx:113 | the filter keeps exactly the projects whose id differs from the payload |
| AppState.WithoutIdConcat | react-app-announcement/src/context/AppContext.jsx:113 | the filter keeps the relative order: it distributes over concatenation |
| AppState.WithoutIdNoMatch | react-app-announcement/src/context/AppContext.jsx:113 | a list with no project of that id is left as it is |
| AppState.DeleteRemovesId | react-app-announcement/src/context/AppContext.jsx:110-114 | DELETE_PROJECT removes every project with that id, keeps the others in order, changes nothing else, and is idempotent |
| AppState.AddThenDelete | react-app-announcement/src/context/AppContext.jsx:105-114 | DELETE_PROJECT with the id of a project just added under an id no other project has restores the state exactly |
| AppState.InitialWellShaped | react-app-announcement/src/context/AppContext.jsx:5-34 | the initial state has the three records, boolean flags, an empty project list and no project to delete |
| AppState.SetKeepsShape | react-app-announcement/src/context/AppContext.jsx:36-123 | storing a value that fits its key keeps the state's shape |
| AppState.StepKeepsShape | react-app-announcement/src/context/AppContext.jsx:36-123 | every action on a well-shaped state, other than SET_PROJECTS with a non-array and LOAD_STATE, succeeds and keeps the shape |
| AppState.Snapshot | react-app-announcement/src/context/AppContext.jsx:142-149 | the persisted object holds exactly the state's appInfo, design, downloads and projects |
| AppState.SnapshotRestores | react-app-announcement/src/context/AppContext.jsx:128-149 | loading a saved snapshot restores the four persisted fields and keeps the rest of the current state |
| LegacyConfig.RemoveFirstHash | js/config.js:190 | `replace("#", "")` with a string pattern drops only the first `#`: a leading one is removed and a string without one is unchanged |
| LegacyConfig.Channels | js/config.js:190-194 | the shifted and masked channels: the top one may be outside a byte (up to a 16-bit range), the other two are bytes |
| LegacyConfig.ClampByte | js/config.js:195-197 | the nested conditional clamps a channel into [0, 255], keeping in-range values |
| LegacyConfig.Adjusted | js/config.js:191-197 | each adjusted channel is a byte |
| LegacyConfig.AdjustBrightnessDigits | js/config.js:195-198 | the leading 1 of `0x1000000 + rgb` keeps leading zeros: the result is `#` and each channel in two hex digits |
| LegacyConfig.AdjustBrightnessFormat | js/config.js:189-199 | the result is always `#` followed by exactly six lower-case hex digits |
| LegacyConfig.AdjustBrightnessDecodes | js/config.js:189-199 | parsing the result back gives the adjusted channels |
| LegacyConfig.AdjustedMonotone | js/config.js:191-197 | a larger percent never lowers any channel |
| LegacyConfig.ChannelsOfNaN | js/config.js:190-194 | a colour that does not parse (NaN) gives channels 0, 0, 0 |
| LegacyConfig.ChannelsOfColor | js/config.js:190-194 | for `#rrggbb` or `rrggbb` the channels are the three hex digit pairs |
| LegacyConfig.AdjustBrightnessZero | js/config.js:191-197 | percent 0 returns the six-digit input colour in lower case |
| LegacyConfig.AdjustedDarkens | js/config.js:191-197 | a negative percent never raises a channel of a six-digit colour |
| LegacyConfig.ColorScheme | js/config.js:272-279 | every scheme of the table has a non-empty second colour |
| LegacyConfig.ColorSchemesWellFormed | js/config.js:271-293 | exactly blue, purple, green and orange exist, each a pair of `#rrggbb` colours |
| LegacyConfig.DefaultIsBlue | js/config.js:18-20 | the default colours are the blue scheme's |
| LegacyConfig.GradientEnd | js/config.js:162-164 | a given second colour is used as it is; without one the end colour is a `#rrggbb` colour |
| LegacyConfig.GradientEndDarker | js/config.js:162-164 | without a second colour the gradient ends in `adjustBrightness(primary, -40)`, no channel brighter than the primary's |
| LegacyConfig.EditedText | js/config.js:72-134 | an edit stores one key and keeps every other configured value |
| LegacyConfig.EditedTextFallsBack | js/config.js:75-130 | typing stores the text; an emptied input keeps the configured value; repeating the same edit changes nothing |
| LegacyConfig.SwitchedClasses | js/config.js:258-268 | the new template class is present, the other template classes are gone, and every non-template class is kept |
| LegacyConfig.SwitchTemplateLastWins | js/config.js:258-268 | switching twice is switching once to the second template |
| LegacyConfig.Painted | js/config.js:162-186 | both backgrounds get the gradient from the primary to the end colour; icon colours change only without a background image; nothing else changes |
| LegacyConfig.PaintedIdempotent | js/config.js:162-186 | repainting with the same colours changes nothing more |
| LegacyConfig.ConfigManager.constructor | js/config.js:3-33 | the default configuration with the panel visible |
| LegacyConfig.ConfigManager.UpdateBackgroundColor | js/config.js:162-186 | paints the page and leaves the configuration alone |
| LegacyConfig.ConfigManager.EditText | js/config.js:72-134 | a text input stores its value, or keeps the old one when emptied; the page model is untouched |
| LegacyConfig.ConfigManager.InputBackground | js/config.js:100-107 | repaints with the new and the current gradient colour and stores `primaryColor` |
| LegacyConfig.ConfigManager.InputGradient | js/config.js:109-116 | repaints with the current and the new gradient colour and stores `secondaryColor` |
| LegacyConfig.ConfigManager.ShowStore | js/config.js:136-158 | a checkbox shows or hides exactly its store's button |
| LegacyConfig.ConfigManager.ApplyColorScheme | js/config.js:271-294 | a known scheme paints the page, fills both colour inputs and stores both colours; any other name changes nothing |
| LegacyConfig.ConfigManager.UpdateConfig | js/config.js:302-305 | the configuration becomes the shallow merge with the new values winning |
| LegacyConfig.ConfigManager.SwitchTemplate | js/config.js:258-268 | only the container's class list changes, as `SwitchedClasses` says |
| LegacyConfig.ConfigManager.TogglePanel | js/config.js:313-328 | without a panel nothing happens; otherwise visibility flips and hiding clears the highlighted tab |
| LegacyConfig.ConfigManager.ShowPanel | js/config.js:331-338 | the panel becomes visible when it exists |
| LegacyConfig.ConfigManager.ClickTab | js/config.js:202-227 | a tab click shows a hidden panel first and highlights the tab |
| LegacyConfig.ConfigManager.ApplyScheme | js/config.js:280-290 | once a scheme is found the page background becomes its gradient, both colour inputs show its colours and the configuration stores both under primaryColor and secondaryColor, keeping every other key |
| StyleConfig.Slice | react-app-announcement/src/data/styleConfig.js:3-5 | `slice` with both ends inside the string is the sub-sequence between them |
| StyleConfig.HslOfInUnit | react-app-announcement/src/data/styleConfig.js:8-24 | channels in [0, 1] always give a hue, saturation and lightness, each in [0, 1] |
| StyleConfig.HslOfChannelsRange | react-app-announcement/src/data/styleConfig.js:3-24 | byte channels give a rounded hue in [0, 360] and saturation and lightness in [0, 100] |
| StyleConfig.HexToHslRange | react-app-announcement/src/data/styleConfig.js:2-25 | a `#rrggbb` colour always converts, with hue in [0, 360] and saturation and lightness in [0, 100] |
| StyleConfig.HexChannels | react-app-announcement/src/data/styleConfig.js:3-5 | the three channels read by `parseInt(…, 16)` are the colour's digit pairs, each below 256, and the conversion is their HSL |
| StyleConfig.GreyHasNoHue | react-app-announcement/src/data/styleConfig.js:12-14 | equal channels take the achromatic branch: hue and saturation are 0 |
| StyleConfig.PrimariesToHsl | react-app-announcement/src/data/styleConfig.js:2-25 | red, green and blue convert to (0, 100, 50), (120, 100, 50) and (240, 100, 50) |
| StyleConfig.HslChannelsInRange | react-app-announcement/src/data/styleConfig.js:27-53 | with saturation and lightness in [0, 100], every rounded channel is a byte, whatever the hue |
| StyleConfig.HslToHexFormat | react-app-announcement/src/data/styleConfig.js:27-56 | the result is `#` and six lower-case hex digits whose pairs are the three channels |
| StyleConfig.HueOutsideTurnIsGrey | react-app-announcement/src/data/styleConfig.js:37-49 | a hue outside [0, 360) matches no sector branch, so the three channels are equal (a grey) |
| StyleConfig.HslToPrimaries | react-app-announcement/src/data/styleConfig.js:27-56 | hues 0, 120 and 240 at full saturation and half lightness give pure red, green and blue |
| StyleConfig.NearRedReadsAsFullTurn | react-app-announcement/src/data/styleConfig.js:14-24 | the rounding lets `#ff0001` read as hue 360 rather than 0 |
| StyleConfig.FullTurnIsGrey | react-app-announcement/src/data/styleConfig.js:37-53 | as written, hue 360 at saturation 80 and lightness 65 gives the grey (94, 94, 94) |
| StyleConfig.WrapHue | react-app-announcement/src/data/styleConfig.js:37-49 | the corrected hue lies in [0, 360) and equals the input already in that range |
| StyleConfig.WrappedAgreesInTurn | react-app-announcement/src/data/styleConfig.js:27-53 | the corrected conversion agrees with the original for every hue in [0, 360) |
| StyleConfig.WrappedPeriodic | react-app-announcement/src/data/styleConfig.js:27-53 | the corrected conversion depends on the hue only modulo 360 |
| StyleConfig.FullTurnIsRedWhenWrapped | react-app-announcement/src/data/styleConfig.js:27-53 | corrected, hue 360 gives the red (237, 94, 94), the same colour as hue 0 |
| StyleConfig.WrappedFullTurnIsNotGrey | react-app-announcement/src/data/styleConfig.js:27-53 | corrected, hue 360 with positive saturation and lightness strictly inside (0, 100) keeps red as the largest channel |
| StyleConfig.HueOffset | react-app-announcement/src/data/styleConfig.js:118-145 | exactly the analogous, complementary, triadic and split schemes rotate the hue, by an amount strictly inside a turn |
| StyleConfig.RotationInTurn | react-app-announcement/src/data/styleConfig.js:128-141 | `(h + k) % 360` of a hue in [0, 360] lies in [0, 360) and subtracts one turn at most |
| StyleConfig.ComplementaryTwice | react-app-announcement/src/data/styleConfig.js:132-133 | two complementary rotations return to the hue modulo 360 |
| StyleConfig.TriadicThrice | react-app-announcement/src/data/styleConfig.js:136-137 | three triadic rotations return to the hue modulo 360 |
| StyleConfig.MonochromaticRange | react-app-announcement/src/data/styleConfig.js:124-126 | the monochromatic scheme keeps the hue, saturation in [10, 100] lowered by at most 20, lightness in [15, 90] raised by at most 15 |
| StyleConfig.SecondaryOfFormat | react-app-announcement/src/data/styleConfig.js:118-145 | every scheme, listed or not, gives a lower-case `#rrggbb` colour |
| StyleConfig.SecondaryFormat | react-app-announcement/src/data/styleConfig.js:118-145 | for a `#rrggbb` base colour a secondary colour always exists and is a lower-case `#rrggbb` colour |
| StyleConfig.RotatedSchemesUnaffected | react-app-announcement/src/data/styleConfig.js:128-141 | the rotating schemes never reach hue 360, so on them the original and the corrected conversion agree |
| StyleConfig.MonochromaticNearRedIsGrey | react-app-announcement/src/data/styleConfig.js:118-126 | as written the monochromatic secondary of `#ff0001` is the grey `#5e5e5e`; corrected it is `#ed5e5e` |
| StyleConfig.ColorConfigOf | react-app-announcement/src/data/styleConfig.js:149 | a listed style's colour adjustments, and `minimal`'s for any other id |
| StyleConfig.GradientOfFormat | react-app-announcement/src/data/styleConfig.js:148-163 | the clamps keep saturation and lightness in range, so the gradient colour is always a lower-case `#rrggbb` colour |
| StyleConfig.GradientFormat | react-app-announcement/src/data/styleConfig.js:148-169 | the direction is always 135deg, and a gradient exists exactly when the base colour parses |
| StyleConfig.GradientIsMonochromatic | react-app-announcement/src/data/styleConfig.js:100-163 | every style's gradient colour equals the monochromatic secondary when neither clamp applies |
| StyleConfig.AllStylesMatchesMap | react-app-announcement/src/data/styleConfig.js:172-174 | every listed style is the one its id names, and every id is listed |
| StyleConfig.StyleById | react-app-announcement/src/data/styleConfig.js:177-179 | a known id gives its style, any other the minimal style |
| StyleConfig.WeightOf | react-app-announcement/src/data/styleConfig.js:191-197 | a missing or empty weight for the element falls back to the body weight |
| StyleConfig.FontClassFallback | react-app-announcement/src/data/styleConfig.js:191-197 | every id gets the minimal font family; `title` gets weight 600 and every other element 400 |
| StyleConfig.StyleConfigWeights | react-app-announcement/src/data/styleConfig.js:200-211 | the full configuration carries the id's style and direction and the parsed weights 600 for titles and 400 for subtitles |
| StickerData.CategoryById | react-app-announcement/src/data/stickerData.js:59-60 | a found category is in the table under that id; none is found only when no category has the id |
| StickerData.FindsEach | react-app-announcement/src/data/stickerData.js:4-50 | with distinct ids (keys of one object), every category is found by its own id |
| StickerData.StickersOf | react-app-announcement/src/data/stickerData.js:58-74 | an unknown id gives no stickers; a known one gives `count` stickers numbered from 1, each built from the category's path, pattern and display name |
| StickerData.StickersInCategory | react-app-announcement/src/data/stickerData.js:58-74 | the `for` loop pushing one sticker per number returns exactly the category's sticker list |
| StickerData.NumberedDistinct | react-app-announcement/src/data/stickerData.js:63-71 | different numbers give different sticker ids and different file names |
| StickerData.StickerIdsDistinct | react-app-announcement/src/data/stickerData.js:58-74 | the stickers of one category have pairwise distinct ids and file names |
| StickerData.Filter | react-app-announcement/src/data/stickerData.js:87-90 | the filter keeps exactly the stickers whose lower-cased name or file name contains the lower-cased query |
| StickerData.SearchedCategories | react-app-announcement/src/data/stickerData.js:78-80 | the searched categories all come from the table: the named one (none when unknown) or all of them |
| StickerData.SearchStickers | react-app-announcement/src/data/stickerData.js:77-95 | the `forEach` over the categories collects the search result category by category, skipping a missing category |
| StickerData.FilterStickers | react-app-announcement/src/data/stickerData.js:87-90 | the filtering loop returns exactly the filtered list |
| StickerData.SearchSound | react-app-announcement/src/data/stickerData.js:77-95 | every result matches the query and is a sticker of one of the searched categories |
| StickerData.SearchComplete | react-app-announcement/src/data/stickerData.js:77-95 | every matching sticker of a searched category is in the result |
| StickerData.EmptyQueryMatchesAll | react-app-announcement/src/data/stickerData.js:87-90 | the empty query matches every sticker |
| StickerData.UnknownCategorySearch | react-app-announcement/src/data/stickerData.js:78-84 | a search restricted to an unknown category finds nothing |
| StickerData.CategoryStatsTotals | react-app-announcement/src/data/stickerData.js:98-111 | the catalogue has 5 categories with distinct ids and 632 stickers in total |
| StickerData.SumCountsIsListed | react-app-announcement/src/data/stickerData.js:100 | with distinct ids, the `reduce` sum of the counts is the number of stickers the categories list |
| ComponentLibrary.StylesFromOneTheme | react-app-announcement/src/data/componentLibrary.js:132-147 | text colour, background and border all come from one theme: the named one when listed, `primary` otherwise |
| ComponentLibrary.StyleFallbacks | react-app-announcement/src/data/componentLibrary.js:132-147 | every component gets the same eight style keys and `inline-block`; a missing weight, size or corner falls back to `600`, `md` and `rounded` |
| ComponentLibrary.GenerateComponent | react-app-announcement/src/data/componentLibrary.js:152-165 | a component exists exactly for a listed type, with that type's default content and a copy of its default props styled by them |
| ComponentLibrary.LabelComponent | react-app-announcement/src/data/componentLibrary.js:105-165 | the label is inserted as "Label Text" in blue on light blue, 16px, weight 600, padding 8px 16px, corner 12px |
| ComponentLibrary.AllTypesFound | react-app-announcement/src/data/componentLibrary.js:125-127 | every type `getAllComponentTypes` lists is the one its id finds |
| FontData.FontsByCategory | react-app-announcement/src/data/fontData.js:43-45 | the filter never lengthens the list |
| FontData.FontsByCategoryMembers | react-app-announcement/src/data/fontData.js:43-45 | a font is in the filtered list exactly when it is in the list and of that category |
| FontData.FontsByCategoryConcat | react-app-announcement/src/data/fontData.js:43-45 | the filter keeps list order: filtering a concatenation concatenates the filtered parts |
| FontData.FontById | react-app-announcement/src/data/fontData.js:48-50 | `find` gives the first font with that id, and `undefined` only when no font has it |
| FontData.Format | react-app-announcement/src/data/fontData.js:60 | the format is `opentype` exactly for an `.otf` file, `truetype` otherwise |
| FontData.FontFaceNamesFile | react-app-announcement/src/data/fontData.js:58-70 | the rule declares the font's name as the family and loads `/fonts/<file>` in its format |
| FontData.FontCategoriesKnown | react-app-announcement/src/data/fontData.js:2-40 | every font's category is a key of `FONT_CATEGORIES` |
| FontData.GroupCategories | react-app-announcement/src/data/fontData.js:3-33 | the English, SF and Chinese parts of the list each hold fonts of one category |
| FontData.FontIdsDistinct | react-app-announcement/src/data/fontData.js:2-34 | no two fonts share an id, so `getFontById` finds each font |
| FontData.CategorySizes | react-app-announcement/src/data/fontData.js:2-45 | the categories hold 12 English, 9 SF and 5 Chinese fonts |
| FontData.PartitionSizes | react-app-announcement/src/data/fontData.js:43-45 | a list made of one English, one SF and one Chinese part filters back into those parts |
| FontData.AllOneCategory | react-app-announcement/src/data/fontData.js:43-45 | a list of one category is kept whole by the filter for that category |
| FontData.NoneOfOther | react-app-announcement/src/data/fontData.js:43-45 | a list of one category gives nothing for another category |
| FontData.FontHead.constructor | react-app-announcement/src/data/fontData.js:73-87 | the document head starts with no font style elements |
| FontData.FontHead.LoadFont | react-app-announcement/src/data/fontData.js:73-87 | a font already loaded leaves the head unchanged; otherwise one element `font-<id>` with the font's rule is appended, and ids stay distinct |
| FontData.FontHead.FindElement | react-app-announcement/src/data/fontData.js:77 | the scan finds an element exactly when one has that id |
| TemplateConfig.ThemeById | react-app-announcement/src/data/templateConfig.js:2-35 | a theme is found exactly for the three keys, and it is the listed theme with that id |
| TemplateConfig.TemplatesForTheme | react-app-announcement/src/data/templateConfig.js:78-82 | the filter never lengthens the table |
| TemplateConfig.TemplatesForThemeMembers | react-app-announcement/src/data/templateConfig.js:78-82 | the result holds exactly the templates whose suitable themes include the theme id |
| TemplateConfig.TemplatesForThemeConcat | react-app-announcement/src/data/templateConfig.js:78-82 | the filter keeps table order: it splits along any split of the table |
| TemplateConfig.TablesAgree | react-app-announcement/src/data/templateConfig.jsx:88-129 | the table with preview drawings names the same templates, in the same order, with the same suitable themes as react-app-announcement/src/data/templateConfig.js:39-75 |
| TemplateConfig.SameSuitabilitySameIds | react-app-announcement/src/data/templateConfig.jsx:132-136 | tables that agree on ids and suitable themes give the same template ids for every theme |
| TemplateConfig.TablesShape | react-app-announcement/src/data/templateConfig.js:39-75 | both tables list classic, center, minimal, hero and grid in that order |
| TemplateConfig.FeatureTemplates | react-app-announcement/src/data/templateConfig.js:78-82 | the `feature` theme gets classic, center, minimal and grid from either table |
| TemplateConfig.BetaTemplates | react-app-announcement/src/data/templateConfig.js:78-82 | the `beta` theme gets classic, center and hero from either table |
| TemplateConfig.SuitableThemesKnown | react-app-announcement/src/data/templateConfig.js:39-75 | every suitable theme a template names is a key of `themes` |
| TemplateConfig.UnknownThemeNoTemplates | react-app-announcement/src/data/templateConfig.jsx:132-136 | a theme id that is not a key gets no template from either table |
| TemplateConfig.ContentTypesForTheme | react-app-announcement/src/data/templateConfig.js:85-87 | an unknown theme shows only the basic block; a known one its own content blocks |
| TemplateConfig.ContentTypesShape | react-app-announcement/src/data/templateConfig.jsx:139-142 | every theme shows the basic block first, and a known theme ends with the download buttons |
| TemplateConfig.TemplateById | react-app-announcement/src/data/templateConfig.jsx:145-146 | a listed id gives the template with that id; any other id gives the classic template |
| TemplateConfig.UnknownTemplateIsClassic | react-app-announcement/src/data/templateConfig.jsx:145-146 | an id the table does not hold gets the template whose id is `classic` |
| TemplateData.TemplateData | react-app-announcement/src/data/templateData.js:23-33 | a builder is found exactly for the six keys of the table |
| TemplateData.ElementsFor | react-app-announcement/src/data/templateData.js:38-43 | an id the table does not hold gives no elements |
| TemplateData.ProductHuntMembership | react-app-announcement/src/data/templateData.js:46-51 | the four Product Hunt ids are in the list that gets the listing; classic and center are not |
| TemplateData.MobileDispatch | react-app-announcement/src/data/templateData.js:54-58 | classic and center receive the app and, second, the download flags |
| TemplateData.ProductHuntDispatch | react-app-announcement/src/data/templateData.js:54-55 | the Product Hunt layouts receive the app, the listing and the download flags in declaration order |
| TemplateData.ShowcaseDispatch | react-app-announcement/src/data/templateData.js:29-32 | the VoiceAI and Palify builders take no part of the state |
| TemplateData.DispatchedElementsBound | react-app-announcement/src/data/templateData.js:38-59 | for every template with bound content, every element placed on the canvas shows the part of the state it is bound to |
| TemplateElements.CenterX | react-app-announcement/src/data/mobile/mobileTemplateData.js:9-11 | the centre is 600 without a window and otherwise half the window's inner width |
| TemplateElements.IconContent | react-app-announcement/src/data/mobile/mobileTemplateData.js:21 | the icon shows the uploaded image when it is truthy and the emoji otherwise |
| TemplateElements.StoreButton | react-app-announcement/src/data/mobile/mobileTemplateData.js:71-89 | at most one button, present exactly when the download flag is truthy |
| TemplateElements.CenterShift | react-app-announcement/src/data/mobile/mobileTemplateData.js:9-11 | widening the window by 2d moves the centre by d |
| MobileTemplates.StoreCount | react-app-announcement/src/data/mobile/mobileTemplateData.js:71-109 | at most two stores are switched on |
| MobileTemplates.StoreButtonsShape | react-app-announcement/src/data/mobile/mobileTemplateData.js:71-109 | one button per flag that is on, App Store first, each bound to its flag with that store's icon and label |
| MobileTemplates.ClassicShape | react-app-announcement/src/data/mobile/mobileTemplateData.js:16-110 | the classic layout is icon, name, title, subtitle, then one button per store switched on, and every element shows what its binding reads |
| MobileTemplates.CenterShape | react-app-announcement/src/data/mobile/mobileTemplateData.js:115-213 | the centre layout has the same elements in the same order, every one bound |
| MobileTemplates.TopBottomShape | react-app-announcement/src/data/mobile/mobileTemplateData.js:218-316 | the top-bottom layout puts the name after the title and subtitle, every element bound |
| MobileTemplates.DiagonalShape | react-app-announcement/src/data/mobile/mobileTemplateData.js:321-415 | the diagonal layout has the classic order, every element bound |
| MobileTemplates.CenteredLayoutsFollowWindow | react-app-announcement/src/data/mobile/mobileTemplateData.js:115-316 | widening the window by 2d moves every element of the centred layouts d to the right and changes nothing else |
| MobileTemplates.NoWindowCenter | react-app-announcement/src/data/mobile/mobileTemplateData.js:9-11 | without a window the centre layout's icon starts at 550 and its title at 400 |
| ProductHuntTemplates.CenterShape | react-app-announcement/src/data/productHunt/productHuntTemplateData.js:16-97 | badge, icon, name and tagline, then an App Store button exactly when that store is on (Google Play is never shown), every element bound |
| ProductHuntTemplates.TopShape | react-app-announcement/src/data/productHunt/productHuntTemplateData.js:102-163 | icon, name, tagline and description whatever the download flags, every element bound |
| ProductHuntTemplates.KlavisLayout | react-app-announcement/src/data/productHunt/productHuntTemplateData.js:168-238 | the Klavis mock-up has five elements whatever the window |
| ProductHuntTemplates.InfluencerLayout | react-app-announcement/src/data/productHunt/productHuntTemplateData.js:243-344 | the influencer mock-up has six elements whatever the window |
| ProductHuntTemplates.ScrumballLayout | react-app-announcement/src/data/productHunt/productHuntTemplateData.js:349-429 | the Scrumball mock-up has five elements whatever the window |
| ProductHuntTemplates.VoiceLayout | react-app-announcement/src/data/productHunt/productHuntTemplateData.js:434-481 | the voice AI mock-up has three elements whatever the window |
| ProductHuntTemplates.SpeakCreateLaunchLayout | react-app-announcement/src/data/productHunt/productHuntTemplateData.js:486-561 | the speak-create-launch mock-up has five elements whatever the window |
| ProductHuntTemplates.PalifyLayout | react-app-announcement/src/data/productHunt/productHuntTemplateData.js:566-632 | the Palify mock-up has four elements whatever the window |
| ProductHuntTemplates.ClipsLayout | react-app-announcement/src/data/productHunt/productHuntTemplateData.js:637-736 | the Clips mock-up has six elements whatever the window |
| StyleManager.VariantClassesClean | react-app-announcement/src/utils/styleManager.js:28-33 | every base class has no surrounding white space, and only the app name's is empty |
| StyleManager.TemplateSizesClean | react-app-announcement/src/utils/styleManager.js:36-57 | every size class in the table is a non-empty class list without surrounding white space |
| StyleManager.SizeClass | react-app-announcement/src/utils/styleManager.js:70 | a non-empty size class comes from the template's own entry or the default template's; with neither it is empty |
| StyleManager.TextClass | react-app-announcement/src/utils/styleManager.js:68-73 | the trimmed class string never starts or ends with white space |
| StyleManager.TrimClean | react-app-announcement/src/utils/styleManager.js:72 | `trim()` leaves no white space at either end |
| StyleManager.TrimAround | react-app-announcement/src/utils/styleManager.js:72 | trimming removes exactly the white space around a clean word |
| StyleManager.JoinShape | react-app-announcement/src/utils/styleManager.js:72 | the joined and trimmed string is the non-empty parts with the separators between them that the template literal leaves |
| StyleManager.TextClassShape | react-app-announcement/src/utils/styleManager.js:68-73 | title and subtitle get base class, one space, size class; the app name its size class alone; plain text its base class and two spaces before a custom class; an unknown variant only the custom class |
| StyleManager.SizeClassShape | react-app-announcement/src/utils/styleManager.js:36-70 | title, subtitle and app name always get a size class; an unknown template falls back to the default one; other variants get none |
| StyleManager.DefaultAppNameClass | react-app-announcement/src/utils/styleManager.js:52-72 | without a custom class the app name is `text-xl` in the default template and in every template the size table does not list |
| StyleManager.LayoutClass | react-app-announcement/src/utils/styleManager.js:81-83 | the table's entry for the template and element, or the empty string when there is none |
| StyleManager.LayoutClassMissing | react-app-announcement/src/utils/styleManager.js:7-25 | an unknown template has no layout classes, nor do the elements the known templates leave out |
| StyleManager.TextStyle | react-app-announcement/src/utils/styleManager.js:91-117 | app name, title and subtitle get colour, family and weight; every other variant only colour and family |
| StyleManager.TextStyleDefaults | react-app-announcement/src/utils/styleManager.js:91-117 | the colour is the configured one when truthy and white otherwise, the family passes through, and the weight is the configured one when truthy and the variant's default otherwise |
| StyleManager.EmptyTypography | react-app-announcement/src/utils/styleManager.js:91-117 | with no settings: white, no family, and weights 600, 700 and 400 for app name, title and subtitle |
| StyleManager.SameBaseStyle | react-app-announcement/src/utils/styleManager.js:92-95 | every variant gets the same colour and family |
| ProjectStore.IndexOf | react-app-announcement/src/utils/storage.js:240 | the index of the first occurrence of the character, and none exactly when it does not occur |
| ProjectStore.SecondField | react-app-announcement/src/utils/storage.js:240-241 | `split(',')[1]` exists exactly when the text has a comma |
| ProjectStore.SecondFieldOfDataUrl | react-app-announcement/src/utils/storage.js:240 | the second field of `header,payload` (neither holding a comma) is the payload |
| ProjectStore.RemoveWhitespace | react-app-announcement/src/utils/storage.js:243 | the white space `atob` skips is gone and the text is no longer |
| ProjectStore.CanvasPayloadDecodes | react-app-announcement/src/utils/storage.js:243 | base64 text whose length is a multiple of four, as a canvas writes it, always decodes |
| ProjectStore.LengthRefused | react-app-announcement/src/utils/storage.js:243 | base64 text one character longer than a multiple of four never decodes |
| ProjectStore.ForeignCharRefused | react-app-announcement/src/utils/storage.js:243 | text of a length that is a multiple of four, with no white space or trailing `=`, fails on any character outside the base64 alphabet |
| ProjectStore.BadPayloadRefused | react-app-announcement/src/utils/storage.js:243-254 | a payload of impossible length or with a foreign character does not decode, so the image is not written |
| ProjectStore.SavedPayload | react-app-announcement/src/utils/storage.js:228-251 | a payload is written only when the image is set, the id is not empty, the store is ready, the image is a string with a non-empty second field, and that field decodes |
| ProjectStore.SaveImageReturn | react-app-announcement/src/utils/storage.js:228-256 | a written image returns its file name; otherwise `null` or the image itself |
| ProjectStore.LoadImageResult | react-app-announcement/src/utils/storage.js:258-283 | no name gives `null`, an inline data URL (or any name while the store is not ready) is returned as is, a name that is not a string throws, a stored file comes back as a JPEG data URL of `btoa` of its bytes, and a missing file gives `null` |
| ProjectStore.LoadAll | react-app-announcement/src/utils/storage.js:84-98 | a successful load reads as many projects as the file lists |
| ProjectStore.LoadAllPointwise | react-app-announcement/src/utils/storage.js:84-98 | the list loads exactly when every project loads, and the k-th project loaded is the k-th project of the file loaded |
| ProjectStore.LoadOneKeepsFields | react-app-announcement/src/utils/storage.js:88-95 | a loaded project keeps every field of the file but the two images, and gains at most those |
| ProjectStore.ProjectData | react-app-announcement/src/utils/storage.js:109-139 | the saved current project always has the same set of keys |
| ProjectStore.FindIndex | react-app-announcement/src/utils/storage.js:182 | `findIndex`: the first project whose id is strictly equal, and none only when no project has it |
| ProjectStore.LoadedNamesAreStrings | react-app-announcement/src/utils/storage.js:84-98 | a project that loads has string image names, so it can be handed to `deleteImage` |
| ProjectStore.FileNameNotDataUrl | react-app-announcement/src/utils/storage.js:245-262 | a project's image file name is never taken for an inline data URL unless the id starts like one |
| ProjectStore.ImageRoundTrip | react-app-announcement/src/utils/storage.js:228-283 | an image saved as a data URL is written under the project's file name as the bytes `atob` decodes, and read back as a JPEG data URL whose payload is `btoa(atob(payload))`, whatever media type it had |
| ProjectStore.CurrentProjectRoundTrip | react-app-announcement/src/utils/storage.js:105-174 | the current project saved with a screen image reads back with the editor's fields, the file name, and the image as a JPEG data URL of `btoa(atob(payload))` |
| ProjectStore.NotReadyReadsNothing | react-app-announcement/src/utils/storage.js:13-19 | outside the desktop shell no project, no current project and no stored image is read |
| ProjectStore.UnreadableProjectEmptiesList | react-app-announcement/src/utils/storage.js:84-101 | one `null` in the list makes the whole list read as empty, so a delete then writes an empty list |
| ProjectStore.DeleteLeavesOthers | react-app-announcement/src/utils/storage.js:219 | after a delete no project of that id is left, every other one is still there, and the list does not grow |
| ProjectStore.UpdateReplacesOne | react-app-announcement/src/utils/storage.js:182-193 | an update replaces only the project found, with its fields overridden by the update's, keeping length and order |
| ProjectStore.LoadedAreLoadable | react-app-announcement/src/utils/storage.js:71-103 | every project `loadProjects` returns has string image names |
| ProjectStore.ProjectStorage.constructor | react-app-announcement/src/utils/storage.js:5-11 | the store starts not initialised with the given files |
| ProjectStore.ProjectStorage.Init | react-app-announcement/src/utils/storage.js:13-41 | the store becomes ready once inside the desktop shell and never outside it; no file changes |
| ProjectStore.ProjectStorage.SaveProjects | react-app-announcement/src/utils/storage.js:56-69 | the list is written exactly when the store is ready |
| ProjectStore.ProjectStorage.SaveImage | react-app-announcement/src/utils/storage.js:228-256 | returns what `SaveImageReturn` says and writes exactly the decoded bytes of the payload `SavedPayload` names under the project's file name |
| ProjectStore.ProjectStorage.LoadImage | react-app-announcement/src/utils/storage.js:258-283 | returns what `LoadImageResult` says and changes no file |
| ProjectStore.ProjectStorage.DeleteImage | react-app-announcement/src/utils/storage.js:285-298 | a stored image is removed when the store is ready; a missing name or an inline data URL changes nothing; a name that is not a string throws |
| ProjectStore.ProjectStorage.DeleteProjectImages | react-app-announcement/src/utils/storage.js:208-217 | removes exactly the image files the project names |
| ProjectStore.ProjectStorage.LoadOneProject | react-app-announcement/src/utils/storage.js:86-96 | the loop body reads one project as `LoadOne` says |
| ProjectStore.ProjectStorage.LoadProjects | react-app-announcement/src/utils/storage.js:71-103 | returns the projects `LoadedProjects` describes and changes no file |
| ProjectStore.ProjectStorage.SaveCurrentProject | react-app-announcement/src/utils/storage.js:105-145 | when ready, writes and returns the project record with the screen image's file name and stores its payload; otherwise returns `null` |
| ProjectStore.ProjectStorage.WriteCurrent | react-app-announcement/src/utils/storage.js:111-141 | with the store ready, writes the screenshot's bytes when there is one and returns and stores the project record with its file name |
| ProjectStore.ProjectStorage.LoadCurrentProject | react-app-announcement/src/utils/storage.js:147-174 | returns the current project `LoadedCurrent` describes and changes no file |
| ProjectStore.ProjectStorage.UpdateProject | react-app-announcement/src/utils/storage.js:176-199 | merges the update into the first project with that id and writes the list back; an unknown id changes nothing |
| ProjectStore.ProjectStorage.DeleteProject | react-app-announcement/src/utils/storage.js:201-226 | writes the list without every project of that id and removes the first match's image files |
| ProjectStore.ProjectStorage.Clear | react-app-announcement/src/utils/storage.js:300-331 | removes every listed project's image files and both project files |
| ProjectStore.AtobBtoa | react-app-announcement/src/utils/storage.js:243-274 | `atob` decodes whatever `btoa` wrote back to the same bytes |
| ProjectStore.StripBtoa | react-app-announcement/src/utils/storage.js:274 | `btoa` output is the unpadded encoding followed by its padding only |
| ProjectStore.CanonicalOfBtoa | react-app-announcement/src/utils/storage.js:243-274 | a payload `btoa` wrote comes back from a save and load unchanged |
| ProjectStore.CanonicalIdempotent | react-app-announcement/src/utils/storage.js:243-274 | a second save and load of an image changes its payload no further |
| ProjectStore.ShortPayloadsCanonicalised | react-app-announcement/src/utils/storage.js:243-274 | a payload is not always read back as written: `YQ` comes back `YQ==` and `YR==` comes back `YQ==` |
| ProjectStore.PaddingAdded | react-app-announcement/src/utils/storage.js:243-274 | `atob("YQ")` is the byte 97 and `btoa` writes it back padded |
| ProjectStore.StrayBitsDropped | react-app-announcement/src/utils/storage.js:243 | `atob("YR==")` drops the low bits of its last character and gives the byte 97 |
| ProjectStore.BtoaOfA | react-app-announcement/src/utils/storage.js:274 | `btoa` of the byte 97 is `YQ==` |
| Base64.CharOf | react-app-announcement/src/utils/storage.js:274 | every six-bit value has a character of the alphabet |
| Base64.ValueOf | react-app-announcement/src/utils/storage.js:243 | every character of the alphabet has the six-bit value whose character it is |
| Base64.Sextets | react-app-announcement/src/utils/storage.js:274 | four six-bit values per three bytes, and two or three for a final group of one or two bytes |
| Base64.Encode | react-app-announcement/src/utils/storage.js:274 | the unpadded encoding uses the alphabet only and is never one more than a multiple of four long |
| Base64.ValuesOfChars | react-app-announcement/src/utils/storage.js:243-274 | reading characters back gives the values they were written from |
| Base64.BytesOfSextets | react-app-announcement/src/utils/storage.js:243-274 | packing bytes into six-bit values and back loses nothing |
| Base64.DecodeEncode | react-app-announcement/src/utils/storage.js:243-274 | decoding the unpadded encoding of any byte string gives the bytes back |
| ProjectHooks.Thumbnail | react-app-announcement/src/hooks/useProjects.js:17-39 | a thumbnail exists only when the page container is found and the snapshot library is loaded, and then it is the rendered snapshot |
| ProjectHooks.NewProject | react-app-announcement/src/hooks/useProjects.js:41-56 | the new project holds exactly the id, name, time, thumbnail, the three records and the screen image |
| ProjectHooks.ImportedProject | react-app-announcement/src/hooks/useProjects.js:112-144 | a parsed file is accepted exactly when it is an object with truthy `appInfo`, `design` and `downloads` |
| ProjectHooks.ImportRenews | react-app-announcement/src/hooks/useProjects.js:121-128 | an accepted import keeps every field of the file but the id and the time, which are fresh |
| ProjectHooks.SaveAppends | react-app-announcement/src/hooks/useProjects.js:41-62 | saving appends one project to the list, changes no other part of the state, and saves copies of the editor's records |
| ProjectHooks.SaveThenLoad | react-app-announcement/src/hooks/useProjects.js:41-83 | a saved project loaded into the editor it came from gives back exactly that editor state, switched to the app tab and with its screen image entry set to the one it had |
| ProjectHooks.LoadMerges | react-app-announcement/src/hooks/useProjects.js:68-83 | loading merges each record: keys the project holds take its values, others keep the editor's; the screen image is the project's and the tab is `app` |
| ProjectHooks.LoadProjectUpdates | react-app-announcement/src/hooks/useProjects.js:68-83 | the five dispatches of a load together merge the three records, set the screen image and switch to the app tab, and touch no other key |
| ProjectHooks.LoadNullRefused | react-app-announcement/src/hooks/useProjects.js:68-71 | loading `null` or `undefined` throws before any action runs |
| ProjectHooks.ImportNeedsRecords | react-app-announcement/src/hooks/useProjects.js:121-124 | a file missing any of the three records is refused and nothing is added |
| ProjectHooks.SaveThenDelete | react-app-announcement/src/hooks/useProjects.js:41-93 | deleting by the id of a project just saved under a fresh id gives back the editor exactly as it was before the save |
| LegacyProjects.CeilDiv | js/projects.js:315 | `Math.ceil(x / y)`: the least count of units covering x, and 0 for 0 |
| LegacyProjects.FormatDate | js/projects.js:311-326 | a timestamp that does not parse shows the locale date; a day count shown is 0 or between 3 and 7 |
| LegacyProjects.FormatDateRanges | js/projects.js:311-326 | up to one day is today, up to two days yesterday, up to a week a day count, the same instant zero days, and anything further the locale date |
| LegacyProjects.CeilDivAtMost | js/projects.js:315 | a positive distance rounds up to at most k days exactly when it is at most k days |
| LegacyProjects.FormatDateSymmetric | js/projects.js:313-315 | a future timestamp gets the label of the past one equally far away, because the difference is taken absolutely |
| LegacyProjects.NewerFirst | js/projects.js:136 | the comparator puts a later timestamp first |
| LegacyProjects.NewerFirstOrders | js/projects.js:136 | the comparator is a strict weak order, so the sort is well defined |
| LegacyProjects.ListedNewestFirst | js/projects.js:119-142 | the page lists every saved design exactly once, newest first |
| LegacyProjects.ProjectManager.constructor | js/projects.js:3-13 | construction lists the stored designs, with no dialog open and no calls made |
| LegacyProjects.ProjectManager.LoadProjectsList | js/projects.js:119-142 | the page shows the stored designs newest first and nothing else changes |
| LegacyProjects.ProjectManager.HideSaveDialog | js/projects.js:83-89 | the save dialog is closed |
| LegacyProjects.ProjectManager.SaveCurrentProject | js/projects.js:92-116 | an empty trimmed name is refused with an error and the store is unchanged; otherwise the name is handed to the config manager, and on success the store holds the design just saved, the dialog closes and an open projects page is redrawn from that store; a failed save changes neither |
| LegacyProjects.ProjectManager.ShowDeleteConfirm | js/projects.js:197-204 | the design is remembered and the confirmation shown |
| LegacyProjects.ProjectManager.HideConfirmDialog | js/projects.js:207-214 | closing the dialog always forgets the pending design |
| LegacyProjects.ProjectManager.ConfirmDeleteProject | js/projects.js:217-229 | nothing happens without a pending design; otherwise it is deleted, and on success the dialog closes and the list is redrawn from the store |
| LegacyProjects.ProjectManager.ImportProjects | js/projects.js:352-375 | an array is appended to the stored designs and its length returned; anything else, or text that is not JSON, is refused and stores nothing |
| LegacyProjects.ImportedAreListed | js/projects.js:358-362 | after an import the page lists the old and the imported designs together, each once, newest first |
| LegacyProjects.BlankNameIsMissing | js/projects.js:93-94 | a name box holding only JavaScript white space gives the empty name, which the save refuses |
| LegacyProjects.IdeographicSpacesRefused | js/projects.js:93-98 | a name of two ideographic spaces (U+3000) is trimmed to nothing and refused |
| Images.Side | react-app-announcement/src/hooks/useUpload.js:30-31 | a non-negative side assigned to a canvas keeps its whole part |
| Images.Canvas.constructor | react-app-announcement/src/hooks/useUpload.js:24 | a new canvas is 300 by 150 |
| Images.Canvas.Resize | react-app-announcement/src/hooks/useUpload.js:30-31 | both sides take the truncated new lengths |
| UploadHook.Validate | react-app-announcement/src/hooks/useUpload.js:6-20 | a file is accepted exactly when it exists, its type starts with `image/` and it is at most 20 MiB |
| UploadHook.Ratio | react-app-announcement/src/hooks/useUpload.js:29 | the factor bringing a side to the square is positive, brings it exactly there, and enlarges a smaller side |
| UploadHook.ScaledInside | react-app-announcement/src/hooks/useUpload.js:29-31 | the scaled image fits the square and touches it on one side |
| UploadHook.ScaledKeepsShape | react-app-announcement/src/hooks/useUpload.js:29-31 | both sides are scaled by the same ratio, so the shape is kept |
| UploadHook.ScaledEnlarges | react-app-announcement/src/hooks/useUpload.js:29-31 | an image smaller than the square both ways is enlarged |
| UploadHook.ScaledFits | react-app-announcement/src/hooks/useUpload.js:29-31 | the scaled image fits the square, touches it, keeps its shape, and a small image is enlarged |
| UploadHook.DrawScaled | react-app-announcement/src/hooks/useUpload.js:28-33 | the canvas takes the truncated scaled size |
| UploadHook.DrawnWithinSquare | react-app-announcement/src/hooks/useUpload.js:29-31 | the drawn canvas is within its square and as wide or as high as it |
| UploadHook.UploadEffect | react-app-announcement/src/hooks/useUpload.js:42-89 | a refused file changes nothing; an accepted icon sets only the app record's icon, an accepted screenshot only the screen image |
| UploadHook.UploadCanvas | react-app-announcement/src/hooks/useUpload.js:47-72 | an icon is drawn within 200 by 200 and a screenshot within 1200 by 1200, each touching its square, both at quality 0.9 |
| UploadHook.UseDefaultScreen | react-app-announcement/src/hooks/useUpload.js:91-94 | the screen image is cleared and nothing else changes |
| LegacyUpload.DefaultTypesExactly | js/upload.js:99-101 | by default exactly JPEG, PNG, GIF and WebP are accepted |
| LegacyUpload.TypeCheckWithinChangeHandler | js/upload.js:20-45 | every type the type check accepts passes the change handlers' `image/` test, but an SVG passes that test and fails the type check |
| LegacyUpload.ScaledSide | js/upload.js:122-134 | the scaled side is positive, in proportion to the cut side, and at most the limit when it was the shorter side |
| LegacyUpload.FitSize | js/upload.js:122-134 | both sides end in (0, 1200], the longer one is cut to 1200 when it exceeds it, the shape is kept, and an image within 1200 on both sides is unchanged |
| LegacyUpload.CompressImage | js/upload.js:109-146 | the drawn size is FitSize of the image's size and the canvas takes the truncated sizes |
| LegacyUpload.HandleFileUpload | js/upload.js:179-208 | a file is shown exactly when its type and size pass, and it is compressed exactly when it exceeds 1 MiB |
| LegacyUpload.CompressedBand | js/upload.js:186-193 | exactly 1 MiB is not compressed, one byte more is, 5 MiB is still accepted and one byte more is refused |
| LegacyUpload.Drop | js/upload.js:162-175 | a drop is handled exactly when it holds a file of an accepted type, and then only the first file |
| PageCapture.WithDisplay | react-app-announcement/src/hooks/useDownload.js:17-22 | setting the display of listed elements never adds or removes an element of the page |
| PageCapture.ApplyDisplay | react-app-announcement/src/hooks/useDownload.js:17-22 | the `forEach` loop gives exactly the page `WithDisplay` describes |
| PageCapture.WithDisplayStep | react-app-announcement/src/hooks/useDownload.js:17-22 | each step of the loop sets one more listed element present on the page |
| PageCapture.WithDisplayTwice | react-app-announcement/src/hooks/useDownload.js:17-36 | setting the same elements twice leaves the second value |
| PageCapture.StampShape | react-app-announcement/src/hooks/useDownload.js:63 | the time part of a file name has no colon and is the first 19 characters of the ISO time |
| DownloadHook.FileNameShape | react-app-announcement/src/hooks/useDownload.js:63-70 | a download's file name has no colon |
| DownloadHook.ImageHeight | react-app-announcement/src/hooks/useDownload.js:77 | the image height is the canvas height scaled by 210 over the canvas width, never negative |
| DownloadHook.Positions | react-app-announcement/src/hooks/useDownload.js:80-88 | one position per page, the k-th at -295·k |
| DownloadHook.PageCountFloor | react-app-announcement/src/hooks/useDownload.js:78-90 | as written, an image of height h takes 1 + floor(h / 295) pages |
| DownloadHook.ExactHeightBlankPage | react-app-announcement/src/hooks/useDownload.js:85 | as written, an image exactly k ≥ 1 pages high gets k + 1 pages, the last one blank |
| DownloadHook.PagesNeededCover | react-app-announcement/src/hooks/useDownload.js:85 | corrected to `heightLeft > 0`, every page shows part of the image and the pages hold all of it |
| DownloadHook.OnePageImageGetsTwoPages | react-app-announcement/src/hooks/useDownload.js:73-90 | a 420 by 590 canvas is exactly one page high, yet the loop as written makes two pages where one is needed |
| DownloadHook.Pdf.constructor | react-app-announcement/src/hooks/useDownload.js:74 | `new jsPDF()` starts with one page and no image |
| DownloadHook.Pdf.AddPage | react-app-announcement/src/hooks/useDownload.js:87 | one more page, the images unchanged |
| DownloadHook.Pdf.AddImage | react-app-announcement/src/hooks/useDownload.js:82 | the image is placed at the position on the current page |
| DownloadHook.WritePdf | react-app-announcement/src/hooks/useDownload.js:78-90 | the loop places the image at 0, -295, -590, … once per page, adding one page fewer than it places images |
| DownloadHook.DownloadPage.constructor | react-app-announcement/src/hooks/useDownload.js:5-6 | the page starts with the editor's state and no download or alert |
| DownloadHook.DownloadPage.SetDisplay | react-app-announcement/src/hooks/useDownload.js:8-37 | the listed elements present take the display value |
| DownloadHook.DownloadPage.DownloadAs | react-app-announcement/src/hooks/useDownload.js:39-106 | the menu flag is toggled, five elements are hidden and two shown again, and the file is saved when the container exists; otherwise an alert |
| DownloadHook.SavedNames | react-app-announcement/src/hooks/useDownload.js:62-92 | PNG and JPG carry their extension and media type, the PDF its extension and one image per page starting at 0, and any other format saves nothing |
| DownloadHook.ShowTwice | react-app-announcement/src/hooks/useDownload.js:93-104 | showing the two elements a second time changes nothing, so the PDF branch's extra call is harmless |
| DownloadHook.RestoredChrome | react-app-announcement/src/hooks/useDownload.js:8-37 | after a download the toolbar and the left panel are visible again while the right panel, the preview and the menu stay hidden |
| LegacyDownload.AppNameOr | js/download.js:85 | the app name, or `APP` when it is empty |
| LegacyDownload.PdfSizeShape | js/download.js:137-161 | either way the image keeps the canvas's proportions; landscape exactly for a wide canvas, with height under 297, portrait with width at most 210 |
| LegacyDownload.ProcessDownload | js/download.js:104-118 | a file results exactly for png, jpg, or pdf with the PDF library loaded |
| LegacyDownload.ProcessDownloadNames | js/download.js:121-164 | each format's file is named after the app and the time with its own extension, and the PDF has the computed size |
| LegacyDownload.HiddenOf | js/download.js:54-62 | every recorded element is listed, on the page, with its display before the hiding |
| LegacyDownload.RestoreRecorded | js/download.js:89-92 | restoring the recorded displays onto a page that differs only on the recorded elements gives the original page |
| LegacyDownload.RestoreUndoesHide | js/download.js:54-92 | hiding then restoring leaves the page exactly as it was |
| LegacyDownload.ChromeDistinct | js/download.js:46-50 | the three hidden selectors differ |
| LegacyDownload.DownloadStats | js/download.js:248-254 | the count is 0 exactly when none is stored, the last download `null` exactly when none is stored |
| LegacyDownload.NextCountCounts | js/download.js:257-259 | the first download stores 1, and one after n stored downloads stores n + 1 |
| LegacyDownload.StatsAfterClear | js/download.js:248-269 | after the counters are cleared the stats report 0 downloads and none last |
| LegacyDownload.DownloadManager.constructor | js/download.js:3-11 | the manager starts with the menu closed and no download or error |
| LegacyDownload.DownloadManager.ToggleDownloadMenu | js/download.js:27-35 | the menu flips when the page has one |
| LegacyDownload.DownloadManager.ClickOutside | js/download.js:16-23 | a click outside the dropdown closes the menu (downloadAs closes it the same way) |
| LegacyDownload.DownloadManager.HideAll | js/download.js:54-62 | each listed element on the page is recorded with its display and hidden |
| LegacyDownload.DownloadManager.RestoreOriginals | js/download.js:89-92 | each recorded element gets its own display back, or the empty one |
| LegacyDownload.DownloadManager.DownloadAs | js/download.js:37-101 | on success the file is saved and the page is exactly as before; on any error a message is added and the chrome gets the empty display |
| LegacyDownload.DownloadManager.UpdateDownloadStats | js/download.js:257-262 | the count goes up by one and the time and format are stored |
| LegacyDownload.DownloadManager.ClearDownloadCache | js/download.js:265-269 | exactly the three counter keys are removed |
| DownloadHook.ExtraPagesFloor | react-app-announcement/src/hooks/useDownload.js:85-90 | with `left` still to print, the loop adds 1 + floor(left / 295) pages |
| DragReorder.HalfMonotone | react-app-announcement/src/components/DraggableWrapper.jsx:38-50 | moving the pointer down over an item never turns the hovered half from bottom back to top |
| DragReorder.HalfSplitsAtMiddle | react-app-announcement/src/components/DraggableWrapper.jsx:42-47 | the hovered half is the top one exactly when the pointer is above the item's middle |
| DragReorder.SelfDropKeepsIndex | react-app-announcement/src/components/DraggableWrapper.jsx:73-83 | dropping an item on either half of itself computes its own index, so no reorder follows |
| DragReorder.TargetInRange | react-app-announcement/src/components/DraggableWrapper.jsx:73-83 | for an item dragged within a list of n, the computed target index is within the list |
| DragReorder.Moved | react-app-announcement/src/components/DraggableWrapper.jsx:85-86 | the reorder `onReorder` stands for keeps the length and the multiset of items and puts the dragged item at the target |
| DragReorder.MovedNextToTarget | react-app-announcement/src/components/DraggableWrapper.jsx:73-86 | with the computed target, the moved item lands directly above the item dropped on (top half) or directly below it (bottom half) |
| DragReorder.DraggableItem.constructor | react-app-announcement/src/components/DraggableWrapper.jsx:5-15 | a wrapper starts with no indicator, no hovered half and no reorder calls |
| DragReorder.DraggableItem.DragStart | react-app-announcement/src/components/DraggableWrapper.jsx:21-24 | the transfer carries the item's index as text that parses back to the index, and the drag type |
| DragReorder.DraggableItem.DragOver | react-app-announcement/src/components/DraggableWrapper.jsx:38-50 | the indicator is shown with the half under the pointer; no reorder is made |
| DragReorder.DraggableItem.DragLeave | react-app-announcement/src/components/DraggableWrapper.jsx:52-58 | the indicator is cleared only when the pointer left the item, otherwise kept |
| DragReorder.DraggableItem.DragEnd | react-app-announcement/src/components/DraggableWrapper.jsx:32-36 | the indicator and the hovered half are cleared |
| DragReorder.DraggableItem.Drop | react-app-announcement/src/components/DraggableWrapper.jsx:60-90 | a drop of another drag type only clears the indicator; otherwise `onReorder(dragged, target)` is called once when the target differs from the dragged index and a callback exists, and the indicator is cleared |
| DragReorder.DropOnSelf | react-app-announcement/src/components/DraggableWrapper.jsx:60-90 | dragging an item onto itself, on either half, never calls `onReorder` |
| DragReorder.DropFromOther | react-app-announcement/src/components/DraggableWrapper.jsx:21-90 | dragging another item of the same type onto this one calls `onReorder` once with the dragged index and the target next to this item |
| DragReorder.DraggableItem.ReorderCalls | react-app-announcement/src/components/DraggableWrapper.jsx:73-87 | the target is the item's index, one further for its bottom half, one back when the dragged index lies before it; one `onReorder` call is added exactly when the target differs from the dragged index and a callback exists |
| Selection.SelectionRect | react-app-announcement/src/components/SelectionBox.jsx:6-13 | a box is drawn exactly when the selection is active and both endpoints exist |
| Selection.SelectionSpansEnds | react-app-announcement/src/components/SelectionBox.jsx:10-13 | the box is the smallest one holding both endpoints: non-negative sizes, both endpoints inside, two opposite corners at them |
| Selection.SelectionSymmetric | react-app-announcement/src/components/SelectionBox.jsx:10-13 | dragging from either end gives the same box |
| Selection.UnionNone | react-app-announcement/src/components/MultiSelectionBox.jsx:33-70 | there are bounds exactly when at least one selected element was found in the page |
| Selection.UnionEncloses | react-app-announcement/src/components/MultiSelectionBox.jsx:58-65 | the bounds enclose every found element's rectangle |
| Selection.UnionTight | react-app-announcement/src/components/MultiSelectionBox.jsx:58-65 | each side of the bounds is a side of some found rectangle, so no smaller box encloses them all |
| Selection.CalculateBounds | react-app-announcement/src/components/MultiSelectionBox.jsx:33-83 | the loop returns nothing when no element was found, otherwise the enclosing bounds as corner and size |
| Selection.Shown | react-app-announcement/src/components/MultiSelectionBox.jsx:27-89 | the multi-selection box is shown exactly when more than one element is selected and some was found, at the enclosing bounds |
| Selection.ResizeFollowsPointer | react-app-announcement/src/components/MultiSelectionBox.jsx:181-246 | each dragged side follows the pointer with a minimum width of 100 and height of 50; an undragged side keeps its size and a scale of 1 |
| Selection.ResizeScales | react-app-announcement/src/components/MultiSelectionBox.jsx:186-246 | each scale factor is the new size over the old one and is positive |
| Selection.ResizeAnchorsOpposite | react-app-announcement/src/components/MultiSelectionBox.jsx:188-246 | the anchor is the side or corner opposite the dragged handle |
| Selection.AnchorFixed | react-app-announcement/src/components/MultiSelectionBox.jsx:252-257 | an element whose corner sits at the anchor does not move |
| Selection.OffsetsScale | react-app-announcement/src/components/MultiSelectionBox.jsx:252-257 | the distances between selected elements scale by the same factors as the elements |
| Selection.MultiSelectionBox.constructor | react-app-announcement/src/components/MultiSelectionBox.jsx:9-20 | the box starts not resizing, with no recorded start and no updates |
| Selection.MultiSelectionBox.ResizeMouseDown | react-app-announcement/src/components/MultiSelectionBox.jsx:94-154 | a press on a handle records the direction, the pointer, the bounds and the elements' places and starts resizing |
| Selection.MultiSelectionBox.ResizeMove | react-app-announcement/src/components/MultiSelectionBox.jsx:177-281 | while resizing, the shown size is the rounded new size and every recorded element is sent its place and size scaled about the anchor, in order; otherwise nothing changes |
| Selection.MultiSelectionBox.ResizeMouseUp | react-app-announcement/src/components/MultiSelectionBox.jsx:164-170 | the mouseup ends the resize and sends nothing |
| ElementIds.EditableId | react-app-announcement/src/components/common/Editable.jsx:33 | an editable element's id is its path with every dot replaced by a dash: same length, no dot, every other character kept |
| ElementIds.EditableIdMergesDotsAndDashes | react-app-announcement/src/components/common/Editable.jsx:33 | paths that differ only in dots against dashes get the same id, so they share one style entry |
| ElementIds.Between | react-app-announcement/src/components/sidebars/ImageSidebar.jsx:33-34 | an anchored capture between a prefix and a suffix is non-empty and rebuilds the text when wrapped back |
| ElementIds.BetweenOfWrapped | react-app-announcement/src/components/sidebars/ImageSidebar.jsx:33-34 | wrapping any non-empty text in the prefix and suffix and matching gives that text back |
| ElementIds.AnyComponentId | react-app-announcement/src/components/MultiSelectionBox.jsx:46-48 | a recognised element id is exactly the component element id of the captured text |
| ElementIds.ExtractComponentId | react-app-announcement/src/components/sidebars/ImageSidebar.jsx:30-35 | a recognised path is exactly the content path of the returned id; a missing path gives none |
| ElementIds.NumericIdRoundTrip | react-app-announcement/src/components/DynamicComponent.jsx:16 | the element id of a numbered component reads back as its number under the digits pattern and as its text under the general one |
| ElementIds.NonNumericIdSkipped | react-app-announcement/src/components/DynamicComponent.jsx:45-47 | a component id holding a non-digit is skipped by the digits pattern but recognised by the general one |
| ElementIds.ExtractRoundTrip | react-app-announcement/src/components/sidebars/ImageSidebar.jsx:30-35 | a content path reads back as its id, dots included |
| ElementIds.ExtractRefuses | react-app-announcement/src/components/sidebars/ImageSidebar.jsx:30-35 | no path, or the prefix and suffix with nothing between, gives no id |
| EditorCalls.RecordUpdate | react-app-announcement/src/components/common/Editable.jsx:226-236 | a content edit makes at most one record update |
| EditorCalls.RecordUpdateOfField | react-app-announcement/src/components/common/Editable.jsx:226-236 | an edit of `appInfo.<key>` updates that app-info field, one of `productHuntInfo.<key>` that Product Hunt field, with the new text |
| EditorCalls.RecordUpdateOtherPath | react-app-announcement/src/components/common/Editable.jsx:226-236 | an edit under any other record updates nothing |
| Editable.Position | react-app-announcement/src/components/common/Editable.jsx:56-64 | the stored left and top when both are set, otherwise the position the element was first rendered at |
| Editable.MultiMoves | react-app-announcement/src/components/common/Editable.jsx:155-163 | one move per selected element |
| Editable.MultiMoveKeepsLayout | react-app-announcement/src/components/common/Editable.jsx:155-163 | every element of a multi-drag moves by the same amount, so the distances between them are kept |
| Editable.Hides | react-app-announcement/src/components/common/Editable.jsx:277-281 | one hide per selected element, in order |
| Editable.EditableElement.constructor | react-app-announcement/src/components/common/Editable.jsx:20-31 | a new element is not dragging, not editing, not initialised, with no calls made |
| Editable.EditableElement.StoreInitialPosition | react-app-announcement/src/components/common/Editable.jsx:38-51 | an element with neither left nor top stored stores its first-rendered position, once; otherwise nothing is sent |
| Editable.EditableElement.MouseDown | react-app-announcement/src/components/common/Editable.jsx:112-145 | a press on a control, on an input or while editing starts nothing; otherwise the drag starts at the pointer and the element's position, and a multi-selection holding it records every selected element's start |
| Editable.EditableElement.MouseMove | react-app-announcement/src/components/common/Editable.jsx:148-170 | while dragging, a multi-selection holding the element moves every selected element by the pointer's motion from its recorded start; otherwise this element moves to its start plus that motion |
| Editable.EditableElement.MouseUp | react-app-announcement/src/components/common/Editable.jsx:173-206 | a release less than 5 pixels from the press selects the element, adding to the selection with Ctrl or Cmd; the drag ends either way |
| Editable.EditableElement.Delete | react-app-announcement/src/components/common/Editable.jsx:274-285 | with more than one element selected, this one among them, every selected element is hidden and the selection cleared; otherwise only this one is hidden |
| Editable.EditableElement.DoubleClick | react-app-announcement/src/components/common/Editable.jsx:209-223 | one of the seven text paths enters editing; any other opens the style panel |
| Editable.EditableElement.ContentChange | react-app-announcement/src/components/common/Editable.jsx:226-236 | the edited text goes to the record field the path names |
| Editable.EditableElement.Blur | react-app-announcement/src/components/common/Editable.jsx:238-240 | editing ends and nothing is sent |
| Editable.DragThereAndBack | react-app-announcement/src/components/common/Editable.jsx:112-170 | a drag whose pointer comes back to the press point stores the position the drag started from |
| ExportFrame.OutwardGrows | react-app-announcement/src/components/ExportFrame.jsx:58-79 | dragging a corner outwards gives a factor of the whole distance moved along both axes; the reverse motion gives its negation |
| ExportFrame.NewScale | react-app-announcement/src/components/ExportFrame.jsx:81-83 | the extra scale after a corner drag stays between 0.1 and 3 |
| ExportFrame.NewScaleMonotone | react-app-announcement/src/components/ExportFrame.jsx:81-83 | further outwards never gives a smaller scale, and within the bounds the scale moves one unit per 500 pixels |
| ExportFrame.FitsAtScaleOne | react-app-announcement/src/components/ExportFrame.jsx:113-126 | at the user's scale 1 the frame fits in 90 % of the window less the 100-pixel margin, is never drawn larger than 90 % of the export size, and keeps its proportions |
| ExportFrame.DefaultsToCentre | react-app-announcement/src/components/ExportFrame.jsx:128-132 | without a stored position the frame is centred in the window (the intended reading, in which `null` and a never-set field both mean no position) |
| ExportFrame.Frame.constructor | react-app-announcement/src/components/ExportFrame.jsx:9-15 | the frame starts with no gesture under way |
| ExportFrame.Frame.DragHandleMouseDown | react-app-announcement/src/components/ExportFrame.jsx:18-32 | a move starts with the pointer's offset from the stored position, or from the window's centre when none is stored (`null` or never set, the intended reading) |
| ExportFrame.Frame.ResizeStart | react-app-announcement/src/components/ExportFrame.jsx:35-44 | a resize records the corner, the pointer and the current extra scale, 1 when unset |
| ExportFrame.Frame.MouseMove | react-app-announcement/src/components/ExportFrame.jsx:48-89 | a move stores the pointer less the offset as the position; a resize stores the clamped new scale; otherwise the design is unchanged |
| ExportFrame.Frame.MouseUp | react-app-announcement/src/components/ExportFrame.jsx:91-95 | the mouseup ends both gestures and changes nothing else |
| ExportFrame.MovedToStores | react-app-announcement/src/components/ExportFrame.jsx:52-55 | after a move the design holds the new position and every other design property, and no other part of the state changes |
| ExportFrame.DragBack | react-app-announcement/src/components/ExportFrame.jsx:18-55 | grabbing the handle and returning the pointer to where it was grabbed leaves the frame where it was, at the centre when no position was stored |
| ExportFrame.CustomSizeDesign | react-app-announcement/src/context/AppContext.jsx:13-18 | the initial design given a custom width and then a custom height holds both sides and no stored position |
| ExportFrame.UnsetPositionAsWritten | react-app-announcement/src/components/ExportFrame.jsx:21-25 | as written, that frame is shown but its position is `undefined` and grabbing the handle gives a `NaN` offset |
| ExportFrame.UnsetPositionCentred | react-app-announcement/src/components/ExportFrame.jsx:128-132 | read as intended, the same frame is centred in the window |
| DynamicComponent.MergedStyles | react-app-announcement/src/components/DynamicComponent.jsx:16-20 | the merged style holds the keys of both; the stored element style wins and the component's own style fills in the rest |
| DynamicComponent.PositionOf | react-app-announcement/src/components/DynamicComponent.jsx:48-50 | a found position belongs to a component with that numeric id; none is found only when no component has it |
| DynamicComponent.StartPositionsRecord | react-app-announcement/src/components/DynamicComponent.jsx:42-54 | a start is recorded exactly for each selected element id of the form `dynamicComponents-<n>-content` whose component exists, and it is that component's position |
| DynamicComponent.RecordStarts | react-app-announcement/src/components/DynamicComponent.jsx:42-54 | the recording loop leaves exactly the start map described above |
| DynamicComponent.SelectedMoves | react-app-announcement/src/components/DynamicComponent.jsx:70-83 | the move loop sends, in selection order, one move per selected numbered component with a recorded start, each from that start by the pointer's motion |
| DynamicComponent.MultiMovesSameDelta | react-app-announcement/src/components/DynamicComponent.jsx:70-84 | every move of a multi-drag is a numbered component moved from its recorded start by the same pointer motion |
| DynamicComponent.NonNumericSkipped | react-app-announcement/src/components/DynamicComponent.jsx:45-47 | a selected element whose component id holds a non-digit is neither moved by a multi-drag nor deleted by a multi-delete |
| DynamicComponent.DeletesNumbered | react-app-announcement/src/components/DynamicComponent.jsx:314-323 | a multi-delete deletes a component exactly when it is selected under its numeric element id |
| DynamicComponent.DynamicComponentView.constructor | react-app-announcement/src/components/DynamicComponent.jsx:5-13 | a new view is not dragging, not editing, with no recorded starts and no calls |
| DynamicComponent.DynamicComponentView.MouseDown | react-app-announcement/src/components/DynamicComponent.jsx:26-60 | a press on a control, on an input or while editing starts nothing; otherwise the drag keeps the pointer's offset from the component, and a multi-selection holding it records the start of every selected numbered component that exists |
| DynamicComponent.DynamicComponentView.MouseMove | react-app-announcement/src/components/DynamicComponent.jsx:63-93 | while dragging, a multi-selection holding the component moves every selected numbered component with a recorded start by the pointer's motion; otherwise the component goes to the pointer less the offset |
| DynamicComponent.DynamicComponentView.MouseUp | react-app-announcement/src/components/DynamicComponent.jsx:96-115 | a release less than 5 pixels from the press selects the component by its element id and content path, adding to the selection with Ctrl or Cmd; the drag ends either way |
| DynamicComponent.DynamicComponentView.DoubleClick | react-app-announcement/src/components/DynamicComponent.jsx:130-140 | text and component types enter editing; any other type opens the style panel |
| DynamicComponent.DynamicComponentView.ContentChange | react-app-announcement/src/components/DynamicComponent.jsx:143-157 | a component with a data path also updates the record field it names; the content is updated either way, last |
| DynamicComponent.DynamicComponentView.Delete | react-app-announcement/src/components/DynamicComponent.jsx:310-328 | with more than one element selected, this one among them, every selected numbered component is deleted and the selection cleared; otherwise only this component is deleted |
| DynamicComponent.DragBack | react-app-announcement/src/components/DynamicComponent.jsx:26-93 | a drag whose pointer comes back to the press point puts the component back at its position |
| ImageSidebar.ParseValue | react-app-announcement/src/components/sidebars/ImageSidebar.jsx:70-77 | a number is read as it is; a text whose `parseInt` fails, and anything that is neither, gives the default |
| ImageSidebar.ParseValueOfPx | react-app-announcement/src/components/sidebars/ImageSidebar.jsx:70-77 | a pixel length such as `120px` reads back as its number |
| ImageSidebar.FindByText | react-app-announcement/src/components/sidebars/ImageSidebar.jsx:44 | the component found is the first whose id text matches; none is found only when no id text matches |
| ImageSidebar.SelectedComponent | react-app-announcement/src/components/sidebars/ImageSidebar.jsx:56-65 | a component is returned only for a content path whose extracted id is that component's id text |
| ImageSidebar.IsImageElement | react-app-announcement/src/components/sidebars/ImageSidebar.jsx:38-50 | nothing selected, or no path, is not an image; a component path is an image exactly when its component exists and is an image or icon; any other path exactly when it contains `icon` or `image` |
| ImageSidebar.ImageComponentSelected | react-app-announcement/src/components/sidebars/ImageSidebar.jsx:38-50 | the path of an existing image or icon component is an image, whatever its id reads like |
| ImageSidebar.MissingComponentNotImage | react-app-announcement/src/components/sidebars/ImageSidebar.jsx:40-46 | a component path whose component does not exist is not an image, even when its id reads `image` |
| ImageSidebar.AppIconIsImage | react-app-announcement/src/components/sidebars/ImageSidebar.jsx:48-49 | the app icon path `appInfo.icon` is an image |
| ImageSidebar.FlipAppends | react-app-announcement/src/components/sidebars/ImageSidebar.jsx:235-251 | flipping a trimmed transform that has no flip appends `scaleX(-1)` (or `scaleY(-1)`), separated by a space unless the transform was empty |
| ImageSidebar.FlipOfOn | react-app-announcement/src/components/sidebars/ImageSidebar.jsx:235-251 | flipping a transform that is only the flip turns it off as `scaleX(1)` |
| ImageSidebar.FlipOfAppended | react-app-announcement/src/components/sidebars/ImageSidebar.jsx:235-251 | flipping a transform that ends in the flip it gained turns that flip off and keeps the rest |
| ImageSidebar.FlipTwice | react-app-announcement/src/components/sidebars/ImageSidebar.jsx:235-251 | flipping twice leaves the original transform followed by the flip turned off, not the original text |
| ImageSidebar.NewRotation | react-app-announcement/src/components/sidebars/ImageSidebar.jsx:253-255 | the new rotation lies strictly between -360 and 360 and keeps the sign of the sum, as JavaScript's remainder does |
| ImageSidebar.RotateLeftFromNone | react-app-announcement/src/components/sidebars/ImageSidebar.jsx:253-255 | turning left from no rotation gives -90, not 270 |
| ImageSidebar.RotateFullTurn | react-app-announcement/src/components/sidebars/ImageSidebar.jsx:253-255 | a quarter turn right from 270 gives 0 |
| ImageSidebar.LinkedIconUpdate | react-app-announcement/src/components/sidebars/ImageSidebar.jsx:186-198 | a component's data path adds at most one record update |
| ImageSidebar.PathUpdate | react-app-announcement/src/components/sidebars/ImageSidebar.jsx:199-229 | an editable element's path stores the image in at most one record field |
| ImageSidebar.UploadCalls | react-app-announcement/src/components/sidebars/ImageSidebar.jsx:163-232 | at most two updates; a selected component always gets the image as its content first |
| ImageSidebar.UploadToAppInfo | react-app-announcement/src/components/sidebars/ImageSidebar.jsx:199-215 | an image for `appInfo.icon` is stored as `iconImage`; one for any other app field under that field's name |
| ImageSidebar.UploadToLinkedComponent | react-app-announcement/src/components/sidebars/ImageSidebar.jsx:178-198 | a component linked to a field of the app or Product Hunt record gets the image as content, and the record also gets it exactly when the field is `iconImage` |
| ImageSidebar.LockedHeight | react-app-announcement/src/components/sidebars/ImageSidebar.jsx:118-125 | the locked height is the nearest whole number to the typed width over the ratio |
| ImageSidebar.LockedWidth | react-app-announcement/src/components/sidebars/ImageSidebar.jsx:140-147 | the locked width is the nearest whole number to the typed height times the ratio |
| ImageSidebar.LockedWidthKeepsShape | react-app-announcement/src/components/sidebars/ImageSidebar.jsx:118-125 | with the ratio of a w by h image, a width k times w gets a height k times h |
| ImageSidebar.LockedHeightKeepsShape | react-app-announcement/src/components/sidebars/ImageSidebar.jsx:140-147 | with the ratio of a w by h image, a height k times h gets a width k times w |
| ImageSidebar.TypedLength | react-app-announcement/src/components/sidebars/ImageSidebar.jsx:115-116 | a typed length is taken exactly when `parseInt` gives a number above 0 |
| ImageSidebar.TypedLengthOfNat | react-app-announcement/src/components/sidebars/ImageSidebar.jsx:115-116 | a positive number typed in decimal is taken as it is |
| ImageSidebar.ImageEditor.constructor | react-app-announcement/src/components/sidebars/ImageSidebar.jsx:26-27 | the sidebar starts with the lock on, a ratio of 1 and no calls |
| ImageSidebar.ImageEditor.InitAspectRatio | react-app-announcement/src/components/sidebars/ImageSidebar.jsx:89-101 | for an image element whose width and height, 100 when unreadable, are both nonzero, the ratio becomes their quotient; otherwise it is kept |
| ImageSidebar.ImageEditor.ToggleLock | react-app-announcement/src/components/sidebars/ImageSidebar.jsx:341-349 | the lock flips; turning it on takes the ratio from the current width and height |
| ImageSidebar.ImageEditor.WidthChange | react-app-announcement/src/components/sidebars/ImageSidebar.jsx:114-133 | a text that is not a positive integer is ignored; with the lock on and a nonzero ratio the height follows the width; otherwise only the width is set and the ratio is taken anew |
| ImageSidebar.ImageEditor.HeightChange | react-app-announcement/src/components/sidebars/ImageSidebar.jsx:136-155 | the same as a width change with width and height swapped |
| ImageSidebar.ImageEditor.FlipTransform | react-app-announcement/src/components/sidebars/ImageSidebar.jsx:235-251 | one update, to the flipped transform |
| ImageSidebar.ImageEditor.Rotate | react-app-announcement/src/components/sidebars/ImageSidebar.jsx:253-258 | two updates: the new rotation, then the transform with that rotation put in front of the existing one |
| ImageSidebar.ResizeKeepsShape | react-app-announcement/src/components/sidebars/ImageSidebar.jsx:89-125 | taking the ratio from a w by h image and then typing a width k times w with the lock on sets the size to k times w by k times h |
| PhoneModel.MovedPosition | react-app-announcement/src/components/models/PhoneModel.jsx:544-556 | a move keeps the depth and shifts the press position by the pointer's motion times the sensitivity, up on screen being up in the scene |
| PhoneModel.MoveBackToStart | react-app-announcement/src/components/models/PhoneModel.jsx:544-556 | a pointer back at the press point puts the phone back where it was |
| PhoneModel.Rotated | react-app-announcement/src/components/models/PhoneModel.jsx:556-590 | `rotate` turns about x by the vertical motion and about y by the horizontal one, `rotateX`, `rotateY` and `rotateZ` each turn about one axis only, at 0.5 degree per pixel, and the other axes keep their turns from the press |
| PhoneModel.TouchRotated | react-app-announcement/src/components/models/PhoneModel.jsx:640-672 | a one-finger rotation is a mouse rotation, except that `rotateZ` turns by half the finger's distance, in the direction of its horizontal motion |
| PhoneModel.RotateBackToStart | react-app-announcement/src/components/models/PhoneModel.jsx:556-590 | a rotation whose pointer is back at the press point leaves the phone turned as it was at the press |
| PhoneModel.PhoneView.constructor | react-app-announcement/src/components/models/PhoneModel.jsx:436-472 | the initial pose comes from `modelState`, each axis 0 when missing and the camera distance 3 when missing or zero; no gesture, move mode, nothing written |
| PhoneModel.PhoneView.Wheel | react-app-announcement/src/components/models/PhoneModel.jsx:490-499 | the wheel zooms only over the phone, moving the camera distance by 0.03 per unit kept between 1.5 and 10, and shows the controls |
| PhoneModel.PhoneView.MouseDown | react-app-announcement/src/components/models/PhoneModel.jsx:520-541 | a press starts something only with the controls showing and on the canvas: a move in move mode, a rotation in any rotate mode; the pose is unchanged |
| PhoneModel.PhoneView.MouseMove | react-app-announcement/src/components/models/PhoneModel.jsx:544-591 | a move in move mode places the phone from the press, a rotation turns it from the press; otherwise the pose is unchanged |
| PhoneModel.PhoneView.MouseUp | react-app-announcement/src/components/models/PhoneModel.jsx:594-599 | the gesture ends and the controls show; the pose is unchanged |
| PhoneModel.PhoneView.TouchStart | react-app-announcement/src/components/models/PhoneModel.jsx:602-622 | as a mouse press, for exactly one finger with the controls showing |
| PhoneModel.PhoneView.TouchMove | react-app-announcement/src/components/models/PhoneModel.jsx:625-675 | with one finger a move, in any mode, places the phone and a rotation turns it; more or fewer fingers change nothing |
| PhoneModel.PhoneView.SetMode | react-app-announcement/src/components/models/PhoneModel.jsx:455 | the mode buttons set the mode and change nothing else |
| PhoneModel.PhoneView.ApplyContextState | react-app-announcement/src/components/models/PhoneModel.jsx:703-720 | after a template or model change a stored position and rotation are taken over unless a gesture is under way, and a stored nonzero camera distance with them |
| PhoneModel.PhoneView.SyncToContext | react-app-announcement/src/components/models/PhoneModel.jsx:722-732 | in template edit mode the pose is written to `modelState` and the template code regenerated once; otherwise nothing is written |
| PhoneModel.PoseRoundTrip | react-app-announcement/src/components/models/PhoneModel.jsx:703-732 | a pose written in template edit mode and read back after a template change is the pose the phone had |
| PhoneModel.RotateAboutX | react-app-announcement/src/components/models/PhoneModel.jsx:520-599 | rotating about x and letting go changes only the x turn, by the vertical motion times the rotation speed, and leaves the position |
| PhoneModel.PhoneView.PointerOver | react-app-announcement/src/components/models/PhoneModel.jsx:68-73 | the pointer entering the phone marks it hovered |
| PhoneModel.PhoneView.PointerOut | react-app-announcement/src/components/models/PhoneModel.jsx:68-73 | the pointer leaving the phone clears the hover |
| PhoneModel.HoverThenWheel | react-app-announcement/src/components/models/PhoneModel.jsx:490-499 | over the phone the wheel zooms within 1.5 to 10 and shows the controls; after the pointer leaves, the wheel changes nothing, and the pose is never moved |
| ModelGestures.WheelScale | react-app-announcement/src/components/models/PhoneModel2D.jsx:51-65 | a flat mock-up's scale after a wheel step stays within 0.5 and 3; scrolling down never grows it, up never shrinks it, and inside the band it changes by exactly 3 % |
| ModelGestures.CameraDistance | react-app-announcement/src/components/models/PhoneModel.jsx:490-497 | the 3-D camera distance after a wheel step stays within 1.5 and 10, moves with the wheel's direction, and inside the band is 0.03 per unit further |
| ModelGestures.DragTo | react-app-announcement/src/components/models/PhoneModel2D.jsx:79-86 | a drag moves the transform without changing its scale or rotation |
| ModelGestures.DragFollowsPointer | react-app-announcement/src/components/models/PhoneModel2D.jsx:68-86 | the transform follows the pointer's motion since the press, and a pointer back at the press point puts it back |
| ModelGestures.RotateTo | react-app-announcement/src/components/models/PhoneModel2D.jsx:176-188 | a rotation changes neither the scale nor the position |
| ModelGestures.RotateFollowsPointer | react-app-announcement/src/components/models/PhoneModel2D.jsx:162-188 | the rotation is the one at the press plus how far the pointer's angle has turned since, and a pointer back at the press angle leaves it unchanged |
| ModelGestures.DisplayAngle | react-app-announcement/src/components/models/PhoneModel2D.jsx:481 | the angle read-out is always a whole number from 0 to 360 |
| ModelGestures.DisplayAngleOfTurn | react-app-announcement/src/components/models/PhoneModel2D.jsx:481 | an angle in [0, 360) is shown rounded |
| ModelGestures.DisplayAngleOfNegative | react-app-announcement/src/components/models/PhoneModel.jsx:772-774 | an angle in (-360, 0) is shown as its positive equivalent |
| ModelGestures.DisplayAngleShows360 | react-app-announcement/src/components/models/MacBookModel2D.jsx:366 | just below a full turn the read-out shows 360 rather than 0 |
| ModelGestures.FlatFromState | react-app-announcement/src/components/models/PhoneModel2D.jsx:12-17 | a missing rotation reads as 0 and a missing position as the origin |
| ModelGestures.FlatStateRoundTrip | react-app-announcement/src/components/models/PhoneModel2D.jsx:260-282 | a transform with a nonzero scale written to `modelState` reads back unchanged |
| ModelGestures.Cover | react-app-announcement/src/components/models/PhoneModel2D.jsx:340-356 | cover keeps the image's size and draws onto all of it the largest centred part of the image with the screen's aspect ratio |
| ModelGestures.Contain | react-app-announcement/src/components/models/PhoneModel2D.jsx:315-339 | contain grows the canvas to the screen's aspect ratio and draws the whole image at its own size, centred, touching two opposite sides |
| ModelGestures.ScreenShapedImageUntouched | react-app-announcement/src/components/models/PhoneModel2D.jsx:315-356 | an image already of the screen's shape is neither cropped nor padded |
| PhoneModel2D.ScreenDrawing | react-app-announcement/src/components/models/PhoneModel2D.jsx:294-360 | fill draws the image as it is; contain pads it to the 384 by 835 screen shape, centred; cover (the mode in use) crops it to that shape, centred, keeping its size |
| PhoneModel2D.ScreenOverlay | react-app-announcement/src/components/models/PhoneModel2D.jsx:491-494 | for a sized picture the screen lies inside it with a positive size; before the picture has a size it is the measured 23, 22, 384 by 835 pixels |
| PhoneModel2D.FlatPhone.constructor | react-app-announcement/src/components/models/PhoneModel2D.jsx:10-26 | the transform comes from `modelState`, no gesture is under way, the fit mode is cover and nothing is written |
| PhoneModel2D.FlatPhone.Wheel | react-app-announcement/src/components/models/PhoneModel2D.jsx:51-65 | the scale takes one wheel step and stays within 0.5 and 3; the rotate icon shows |
| PhoneModel2D.FlatPhone.MouseDown | react-app-announcement/src/components/models/PhoneModel2D.jsx:68-76 | the drag starts with the pointer's offset from the transform and the rotate icon shows |
| PhoneModel2D.FlatPhone.MouseMove | react-app-announcement/src/components/models/PhoneModel2D.jsx:79-86 | while dragging the transform goes to the pointer less the offset; otherwise it is unchanged |
| PhoneModel2D.FlatPhone.MouseUp | react-app-announcement/src/components/models/PhoneModel2D.jsx:89-91 | the drag ends and the transform is unchanged |
| PhoneModel2D.FlatPhone.TouchStart | react-app-announcement/src/components/models/PhoneModel2D.jsx:94-105 | exactly one finger starts a drag as a mouse press does; otherwise nothing starts |
| PhoneModel2D.FlatPhone.TouchMove | react-app-announcement/src/components/models/PhoneModel2D.jsx:107-117 | a one-finger move while dragging moves the transform as the mouse does; otherwise it is unchanged |
| PhoneModel2D.FlatPhone.Reset | react-app-announcement/src/components/models/PhoneModel2D.jsx:124-126 | the transform returns to scale 1, no rotation, at the origin |
| PhoneModel2D.FlatPhone.RotatePress | react-app-announcement/src/components/models/PhoneModel2D.jsx:162-173 | the rotation starts from the transform's rotation and the pointer's angle |
| PhoneModel2D.FlatPhone.RotateMove | react-app-announcement/src/components/models/PhoneModel2D.jsx:176-188 | while rotating the rotation follows the pointer's angle; otherwise the transform is unchanged |
| PhoneModel2D.FlatPhone.RotateRelease | react-app-announcement/src/components/models/PhoneModel2D.jsx:191-195 | the rotation ends, the rotate icon shows and the transform is unchanged |
| PhoneModel2D.FlatPhone.ApplyContextState | react-app-announcement/src/components/models/PhoneModel2D.jsx:260-269 | after a template or model change a stored position and rotation are taken over unless a gesture is under way |
| PhoneModel2D.FlatPhone.SyncToContext | react-app-announcement/src/components/models/PhoneModel2D.jsx:272-282 | in template edit mode the transform is written to `modelState` and the template code regenerated; otherwise nothing is written |
| PhoneModel2D.TransformRoundTrip | react-app-announcement/src/components/models/PhoneModel2D.jsx:51-282 | zooming, dragging and writing in template edit mode, then reading back after a template change, gives the scale from the wheel and the position moved by the pointer's motion |
| MacBookModel2D.ScreenDrawing | react-app-announcement/src/components/models/MacBookModel2D.jsx:258-290 | a screenshot is always cropped to the 1632 by 1058 screen shape, centred, keeping its size |
| MacBookModel2D.ScreenOverlay | react-app-announcement/src/components/models/MacBookModel2D.jsx:381-384 | for a sized picture the screen lies inside it with a positive size, 1632/2048 of its width; before the picture has a size it is the measured 208, 146, 1632 by 1058 pixels |
| MacBookModel2D.OverlayAtNaturalSize | react-app-announcement/src/components/models/MacBookModel2D.jsx:381-384 | at the picture's natural 2048 by 1349.5 size the overlay is exactly the measured screen, the same as before the size is known |
| MacBookModel2D.FlatMacBook.constructor | react-app-announcement/src/components/models/MacBookModel2D.jsx:10-24 | the transform comes from `modelState`, no gesture is under way and nothing is written |
| MacBookModel2D.FlatMacBook.Wheel | react-app-announcement/src/components/models/MacBookModel2D.jsx:47-58 | the scale takes one wheel step and stays within 0.5 and 3; the rotate icon shows |
| MacBookModel2D.FlatMacBook.MouseDown | react-app-announcement/src/components/models/MacBookModel2D.jsx:61-68 | the drag starts with the pointer's offset from the transform and the rotate icon shows |
| MacBookModel2D.FlatMacBook.MouseMove | react-app-announcement/src/components/models/MacBookModel2D.jsx:70-77 | while dragging the transform goes to the pointer less the offset; otherwise it is unchanged |
| MacBookModel2D.FlatMacBook.MouseUp | react-app-announcement/src/components/models/MacBookModel2D.jsx:79-81 | the drag ends and the transform is unchanged |
| MacBookModel2D.FlatMacBook.RotatePress | react-app-announcement/src/components/models/MacBookModel2D.jsx:115-126 | the rotation starts from the transform's rotation and the pointer's angle |
| MacBookModel2D.FlatMacBook.RotateMove | react-app-announcement/src/components/models/MacBookModel2D.jsx:128-140 | while rotating the rotation follows the pointer's angle; otherwise the transform is unchanged |
| MacBookModel2D.FlatMacBook.RotateRelease | react-app-announcement/src/components/models/MacBookModel2D.jsx:142-145 | the rotation ends, the rotate icon shows and the transform is unchanged |
| MacBookModel2D.FlatMacBook.ApplyContextState | react-app-announcement/src/components/models/MacBookModel2D.jsx:171-181 | after a template or model change a stored position and rotation are taken over unless a gesture is under way |
| MacBookModel2D.FlatMacBook.SyncToContext | react-app-announcement/src/components/models/MacBookModel2D.jsx:183-194 | the transform is always written to `modelState`; the template code is regenerated only in template edit mode |
| MacBookModel2D.TurnSurvivesTemplateChange | react-app-announcement/src/components/models/MacBookModel2D.jsx:115-194 | a turn of the rotate handle outside template edit mode, read back after a template change, keeps its angle, scale and position and regenerates nothing |

## Left out

- Image decoding and encoding, LANCZOS resampling, mask rasterisation, and the `iconutil` and `file` subprocesses. Resampling is a parameter that returns a grid of the right size, and the rounded mask is an abstract 0/255 grid.
- Directory creation and deletion, and console output from the Python scripts.
- `natural_sort_key` is applied to the file name, not to `str(path)`. Every file of one directory shares the same path prefix, which ends in `/`, so the order is the same.
- The DOM: queries, `getBoundingClientRect`, listeners and inline styles. Their results are parameters, and the styles a handler writes are a map.
- FileReader, canvas drawing, `toDataURL`/`toBlob`, html2canvas and the inside of jsPDF. Their outputs are parameters (data URLs, rendered snapshots, canvas sizes), and a PDF is the list of image positions on its pages.
- `localStorage` and the Tauri `fs`/`path` APIs are maps. The async steps run in sequence.
- The three.js scene of the 3-D phone is not modelled. `PhoneModel` keeps its position, rotation and camera distance as fields. The sensitivity derived from the camera's field of view is a field, and the two-finger distance (a square root) is a parameter.
- The `atan2` pointer angles of the rotate handles and the element centre they are measured from come from the DOM and are parameters.
- `generateScreenContent` draws on a canvas and is not modelled. Only the source and target rectangles of `preprocessImage` are.
- Floating point is modelled as `real`: there is no IEEE rounding and no `NaN` among the geometric numbers. `Math.round` is `floor(x + 0.5)`. The upload canvases (`Images.Canvas.Resize`, used by `UploadHook.DrawScaled` and `LegacyUpload.CompressImage`) take the truncated size, as assigning to `canvas.width` does. The screen-fitting canvases of the mock-ups are kept as `real` and not truncated: `ModelGestures.Contain` and `ModelGestures.Cover` (PhoneModel2D.jsx:315-356), `PhoneModel2D.ScreenDrawing` and `MacBookModel2D.ScreenDrawing` (MacBookModel2D.jsx:258-290). A fractional width such as `img.height * targetRatio` is therefore not cut to a whole pixel there.
- The 2^32 wrap of canvas dimensions is not modelled.
- Timers are not modelled: the 1.5 s icon hide and the delay before `generateTemplateCode`. A scheduled regeneration counts as one regeneration.
- Clock and random ids (`Date.now()`, `Math.random()`), `toLocaleDateString` and `toISOString` are parameters.
- The editor context's actions are recorded calls (`updateElement`, `updateModelState`, `generateTemplateCode`, `reorderFeatures` and the rest). They are not run against the reducer. The `modelState` merge of the context is not modelled; the written states are recorded in order.
- The reorder reducer behind `onReorder` is not part of this model. `DragReorder.Moved` states the move that the recorded call stands for.
- The panels, toolbars, dialogs, JSX template components, `MainContent.jsx` and the Tauri bootstrap are presentation only.
- `exportProject` serialises a project to JSON text and starts a file download. That is I/O only, so it is not modelled.
- The legacy project manager (`js/projects.js`) calls `configManager.saveProject`, `getSavedProjects`, `deleteProject` and `loadProject`, but the `ConfigManager` class of `js/config.js` defines none of them, and no other file adds them. As written, `new ProjectManager(...)` therefore throws a `TypeError` in `loadProjectsList` whenever the page has a `#projectsList`. Every save, delete and array import also ends in its `catch`. `LegacyProjects.ProjectManager` assumes a store that provides these four calls. The flags `saveFails` and `deleteFails` and the store contents `savedAfter` stand for what that store does.
- The legacy upload's `updateScreenWithImage`, `showImagePreview`, `updateAppIcon`, `resetUpload` and `getUploadInfo` only write the page.
- The legacy download's `showErrorMessage`, `showSuccessMessage` and `checkBrowserSupport` only write the page.
- `loadFont` appends a style element to the document head and logs. Only its guard is modelled.
- Icon hiding, filters, opacity and border radius in the image sidebar, and the border radius of the mock-up overlays, are presentation only.
- `parseFloatValue` in the image sidebar is not called by any handler that is modelled.
- `fitMode` of the flat phone starts as cover, and nothing in the component changes it. `PhoneModel2D.ScreenDrawing` still covers all three modes.
- Multi-finger touches on the flat phone's rotate handle are ignored, as in the source.
- The opacity of a dragged `DraggableWrapper` is presentation only.
- ImageSidebar.ImageEditor.ToggleLock: requires the height to read as nonzero when the lock is turned on. The source would store `Infinity` as the ratio.
- ImageSidebar.ImageEditor.WidthChange: requires the height to read as nonzero when the ratio is taken anew. The source would store `Infinity`.
- LegacyDownload.ProcessDownload: requires positive canvas sides for a PDF. A zero side gives a `NaN` ratio in the source.
- LegacyDownload.DownloadManager.DownloadAs: requires positive canvas sides for a PDF, for the same reason.
- DownloadHook.DownloadPage.DownloadAs: requires a positive canvas width for a PDF. With width 0 the image height is not a number and the page loop never ends.
- ExportFrame.Frame.MouseMove: during a corner resize it requires the scale at the press to be recorded. The source would compute with `undefined` and store `NaN`.
- Selection.MultiSelectionBox.ResizeMove: requires the selection box at the press to have a positive width and height. The source divides by them.
- DragReorder.DraggableItem.DragStart: requires an enabled wrapper, and so do `DragOver`, `DragLeave`, `DragEnd` and `Drop`. A disabled wrapper attaches none of these handlers.
- PhoneModel2D.ScreenDrawing: requires a screenshot of positive size. A zero side gives a `NaN` ratio in the source.
- MacBookModel2D.ScreenDrawing: requires a screenshot of positive size, for the same reason.
- StyleConfig: `hexToHsl` on text that is not a hex colour yields `NaN` channels in JavaScript. The model returns `None`.
- StickerRenamer.StickerFolder.CheckCategory: the `\d` of the conformance pattern (rename_stickers.py:110-112) is read as an ASCII digit. Python's `\d` also matches other Unicode decimal digits, so a name such as `doodle_١.svg` conforms in the source and not in the model.
- NaturalKeys.NaturalSortKey: only ASCII digits make a number and only ASCII letters are lower-cased. Python's `isdigit` also accepts characters such as `²`, on which `int` raises, so `natural_sort_key("1²2.svg")` fails in Python; the model keeps `²` as text.
- Text.Lower: `toLowerCase()` and `lower()` map only ASCII letters. JavaScript and Python map every cased Unicode letter, which changes the sticker search and the natural order on names with such letters.
- Text.IsDigit: only ASCII digits are digits. That matches JavaScript's `parseInt`; Python's `\d` and `isdigit` also accept others, as the `NaturalKeys.NaturalSortKey` and `CheckCategory` lines say.
- JsValue.Field: reading a property of `null` or `undefined` gives `undefined`, where JavaScript throws a `TypeError`. Built-in properties of strings and arrays, such as `length`, read as absent.
- JsValue.Get: a record holds only its own keys. JavaScript also finds inherited ones such as `toString` or `constructor`, so a lookup by such a key is truthy in the source and missing in the model.
- JsValue.Props: a string or an array has no own properties here. JavaScript's `{...v}` copies their index keys (`"0"`, `"1"`, …) with the characters or the items. So UPDATE_APP_INFO, UPDATE_DESIGN, UPDATE_DOWNLOADS and LOAD_STATE given a string or an array (as the payload, or as the record merged into) merge nothing in the model, where the source merges those index keys.
- ProjectStore.ProjectStorage.LoadProjects: a `projects.json` holding a JSON string is read as no projects. storage.js:85-98 runs its `for…of` over the string's characters instead, reads no image (a character has no `screenImageFile`) and returns the string itself. Only an array counts as a project list here. A number, `null`, a boolean or an object makes the `for…of` throw, which the `catch` turns into `[]`, as in the model.
- Base64: `String.fromCharCode(...bytes)` on a large image can exceed the engine's argument limit. The model has no such limit.

## Findings

| source | as written | input that shows it | evidently intended | confidence | as-written member | corrected member |
|---|---|---|---|---|---|---|
| react-app-announcement/rename_stickers.py:31-41 | the first phase renames the k-th `.svg` to `temp_arrow_k.svg` even when a file of that name sorts later, and `Path.rename` replaces it; the second phase then fails on a missing temporary file | a directory holding `a.svg` and `temp_arrow_1.svg` | every file survives and ends as `arrow_1.svg` .. `arrow_n.svg` | not executed | StickerRenamerCases.TemporaryNameOverwritten | StickerRenamer.SafeRenameResult |
| react-app-announcement/src/data/styleConfig.js:37-49 | a hue of exactly 360 degrees matches no sector, so the chroma is dropped and the colour is grey | `hexToHsl` rounds the hue of `#ff0001` (359.76 degrees) to 360, so its monochromatic secondary is the grey `#5e5e5e` rather than the red `#ed5e5e` | hue 360 is the same as hue 0, a red | not executed | StyleConfig.MonochromaticNearRedIsGrey | StyleConfig.FullTurnIsRedWhenWrapped |
| react-app-announcement/src/hooks/useDownload.js:85 | `while (heightLeft >= 0)` adds a page when the image height is an exact multiple of 295 mm | a 420 by 590 canvas, whose image is exactly one page high | `ceil(h / 295)` pages, at least one | not executed | DownloadHook.OnePageImageGetsTwoPages | DownloadHook.PagesNeededCover |
| react-app-announcement/src/components/ExportFrame.jsx:24-25 | the stored position is used whenever it is not `null`, but a design that never stored one holds `undefined` | the initial design given a custom width and height: `left` becomes `undefinedpx`, and a drag stores `NaN` | no stored position (`null` or never set) means the window's centre | not executed | ExportFrame.UnsetPositionAsWritten | ExportFrame.UnsetPositionCentred |
