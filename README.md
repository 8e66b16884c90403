# Stylish Project View — a Dafny model

Stylish Project View is a Unity editor plug-in that decorates the items of the
Project window. Each item can be drawn with a stack of layers ("stylish data"):
a highlight behind its row and an icon override. The layers come from four
sources:

- an entry cycled by hierarchy level or by sibling index;
- an entry chosen by keyword, which is the file name;
- an entry registered for the item's own path.

This project models the plug-in's editor core in Dafny:

- the settings asset and its lookup tables (`Settings`);
- the per-item layer collection with its caches (`ProjectView`);
- the three draw routines that turn the layers into highlight, icon and label drawing (`ItemDrawing`);
- highlights and their preset popup (`Highlight`, `HighlightPresets`);
- layered icons and icon overrides with their tint arrays (`Icon`);
- the folder inspector and the asset popup with their "enable" and "bypass" switches (`FolderInspector`, `AssetConfig`, `PathToggles`);
- import and export of the settings file (`Export`);
- the small utilities: the resource cache, colour blending and delayed calls (`Utils`).

`Base` holds shared value types (an optional value, colours as four reals) and
the few .NET library operations the plug-in relies on: `IndexOf`, `Remove`,
`Distinct`, `LastIndexOf` and `GetFileNameWithoutExtension`.

C# objects that the plug-in updates in place are Dafny classes whose methods
state the whole new state: `StylishSettings`, `PathData`, `StylishData`,
`StylishHighlight`, `StylishIcon`, `StylishIconOverride`, the project view's
static tables, the folder inspector, the popup, the resource cache and the
delayed-call scheduler. Loops of the source are methods with loop invariants.
Each method is proved against a specification function, and the lemmas beside
it state what that function means. C# exceptions that the code can reach
become failure results. Examples are a null keyword name in `RebuildTable`, a
duplicate name in the keyword dictionary, and an out-of-range icon index on
import. The editor's answers become parameters: asset paths, instance IDs,
subfolder listings, built-in resources and the current time.

All source paths below are relative to the repository root.

## Model

| member | source | states |
|---|---|---|
| Utils.CreateContent | Assets/Plugins/StylishProjectView/Editor/Utils.cs:10-17 | a null or empty text or tooltip becomes ""; an image is present exactly when its name is non-empty, and is the named one |
| Utils.Yield | Assets/Plugins/StylishProjectView/Editor/Utils.cs:31-34 | the sequence holds exactly the one item |
| Utils.CacheGet | Assets/Plugins/StylishProjectView/Editor/ProjectViewGUI.cs:450-458 | the producer is consulted exactly on a miss; a hit returns the stored value and leaves the cache alone; a miss stores the produced value; afterwards the key holds the returned value |
| Utils.CacheGetIsSticky | Assets/Plugins/StylishProjectView/Editor/ProjectViewGUI.cs:450-458 | once a key has been looked up, every later lookup returns the first value, whatever producer it is given |
| Utils.CacheGetAgrees | Assets/Plugins/StylishProjectView/Editor/ProjectViewGUI.cs:450-458 | a cache whose entries all agree with the producer answers as the producer would, and still agrees after the lookup |
| Utils.ResourceCache.constructor | Assets/Plugins/StylishProjectView/Editor/Utils.cs:19 | the cache starts empty |
| Utils.ResourceCache.GetResource | Assets/Plugins/StylishProjectView/Editor/Utils.cs:21-29 | the editor is asked exactly on a miss; a hit returns the cached icon unchanged; a miss caches what the editor returned (a missing icon too) |
| Utils.Blend | Assets/Plugins/StylishProjectView/Editor/Utils.cs:66-97 | None keeps the layer colour, Override takes the tint, Multiple multiplies them; a white tint changes nothing except under Override |
| Utils.PendingAndFiredPartition | Assets/Plugins/StylishProjectView/Editor/Utils.cs:47-58 | a check splits the pending calls exactly: every call is kept or fired, and every due call is fired |
| Utils.PendingKeepsNotDue | Assets/Plugins/StylishProjectView/Editor/Utils.cs:47-58 | a check keeps exactly the calls whose time has not come |
| Utils.FiredAreDue | Assets/Plugins/StylishProjectView/Editor/Utils.cs:47-58 | every fired action belonged to a call that was due |
| Utils.Scheduler.constructor | Assets/Plugins/StylishProjectView/Editor/Utils.cs:36-37 | no pending calls and no update hook |
| Utils.Scheduler.DelayedCall | Assets/Plugins/StylishProjectView/Editor/Utils.cs:36-45 | the call is appended with deadline now + seconds; the update hook is added only when the list was empty, so it is installed once |
| Utils.Scheduler.CheckDelayedCall | Assets/Plugins/StylishProjectView/Editor/Utils.cs:47-58 | the remaining calls are exactly the not-yet-due ones in order; the fired actions are the due ones, last first; the hook is held exactly while calls remain |
| Settings.StylishData.constructor | Assets/Plugins/StylishProjectView/Editor/StylishSettings.cs:33-39 | no name, a fresh override with no icon, mode None and no tints, and a fresh default highlight |
| Settings.PathData.constructor | Assets/Plugins/StylishProjectView/Editor/StylishSettings.cs:22-31 | the entry has its path, all four switches are off, and it holds fresh, unnamed stylish data |
| Settings.LastWithPath | Assets/Plugins/StylishProjectView/Editor/StylishSettings.cs:117-118 | the index of the last entry with the path, -1 when none has it |
| Settings.PathFoldLookup | Assets/Plugins/StylishProjectView/Editor/StylishSettings.cs:115-118 | after the path loop each listed path maps to the last entry with that path; other keys keep their old value; no key is removed |
| Settings.PathFoldKeepsMatchingTable | Assets/Plugins/StylishProjectView/Editor/StylishSettings.cs:115-118 | rebuilding a table that already agrees with the list changes nothing |
| Settings.LastWithName | Assets/Plugins/StylishProjectView/Editor/StylishSettings.cs:119-120 | the index of the last entry with the name, -1 when none has it |
| Settings.KeywordFoldLookup | Assets/Plugins/StylishProjectView/Editor/StylishSettings.cs:119-120 | the keyword loop runs through exactly when no name is null; each name then maps to the last entry with it, and other keys keep their value |
| Settings.Names | Assets/Plugins/StylishProjectView/Editor/StylishSettings.cs:119-120 | the i-th name is the i-th keyword entry's name |
| Settings.KeywordDictionaryLookup | Assets/Plugins/StylishProjectView/Editor/StylishSettings.cs:480 | the dictionary is built exactly when no non-null name repeats; it then maps exactly the non-null names, each to its entry |
| Settings.KeywordDictionary | Assets/Plugins/StylishProjectView/Editor/StylishSettings.cs:480 | when built, every present name is a key and there are no more keys than entries |
| Settings.KeywordDictionaryMatchesRebuild | Assets/Plugins/StylishProjectView/Editor/StylishSettings.cs:480 | with every name present and unique, the list editor's dictionary equals the table `RebuildTable` builds from empty, and that rebuild does not throw |
| Settings.KeywordFoldStopped | Assets/Plugins/StylishProjectView/Editor/StylishSettings.cs:119-120 | once the keyword loop has thrown, the later entries change nothing |
| Settings.RebuildFromEmptyMatches | Assets/Plugins/StylishProjectView/Editor/StylishSettings.cs:115-118 | from an empty table and a list with distinct paths, the rebuild gives a table that agrees with the list |
| Settings.RemoveKeepsMatch | Assets/Plugins/StylishProjectView/Editor/StylishSettings.cs:220-224 | removing a path's registered entry from both list and table keeps them in agreement |
| Settings.StylishSettings.constructor | Assets/Plugins/StylishProjectView/Editor/StylishSettings.cs:49-63 | default switches, every list and table empty, list and table in agreement |
| Settings.StylishSettings.RebuildTable | Assets/Plugins/StylishProjectView/Editor/StylishSettings.cs:115-121 | the path table is the path fold over the list; the keyword table is the keyword fold; the result is false exactly when a null name stops it; nothing else changes; list and table stay in agreement |
| Settings.StylishSettings.RebuildPathTable | Assets/Plugins/StylishProjectView/Editor/StylishSettings.cs:117-118 | the path table becomes the path fold over the list; nothing else changes |
| Settings.StylishSettings.RebuildKeywordTable | Assets/Plugins/StylishProjectView/Editor/StylishSettings.cs:119-120 | the keyword table becomes the keyword fold, stopping at a null name; nothing else changes |
| Settings.StylishSettings.Clear | Assets/Plugins/StylishProjectView/Editor/StylishSettings.cs:129-143 | default switches, every list and both tables empty |
| Settings.StylishSettings.GetCyclicStylishData | Assets/Plugins/StylishProjectView/Editor/StylishSettings.cs:151-156 | null for a negative index or an empty list, otherwise the entry at index modulo the list length |
| Settings.StylishSettings.GetHierarchyLevelStylishData | Assets/Plugins/StylishProjectView/Editor/StylishSettings.cs:158-162 | null unless level cycling is on, then the cyclic entry for the level |
| Settings.StylishSettings.GetSiblingIndexStylishData | Assets/Plugins/StylishProjectView/Editor/StylishSettings.cs:164-168 | null unless sibling cycling is on, then the cyclic entry for the index |
| Settings.StylishSettings.GetKeywordStylishData | Assets/Plugins/StylishProjectView/Editor/StylishSettings.cs:170-177 | the keyword's entry exactly when keyword styling is on and the keyword is in the table, otherwise null |
| Settings.StylishSettings.GetPathStylisPaths | Assets/Plugins/StylishProjectView/Editor/StylishSettings.cs:179-182 | the paths of the path entries, in list order |
| Settings.StylishSettings.Registered | Assets/Plugins/StylishProjectView/Editor/StylishSettings.cs:199-205 | the registered entry of the path, null exactly when none is registered |
| Settings.StylishSettings.GetPathStylishBypass | Assets/Plugins/StylishProjectView/Editor/StylishSettings.cs:184-189 | true exactly when the path is registered and its entry bypasses styling |
| Settings.StylishSettings.GetPathStylishData | Assets/Plugins/StylishProjectView/Editor/StylishSettings.cs:191-197 | the registered entry's stylish data exactly when path styling is on and the path is registered, otherwise null |
| Settings.StylishSettings.GetPathData | Assets/Plugins/StylishProjectView/Editor/StylishSettings.cs:199-209 | a registered path gives its entry; an unregistered one gives null, or with `create` a fresh, unregistered entry for that path with all switches off |
| Settings.StylishSettings.AddPathData | Assets/Plugins/StylishProjectView/Editor/StylishSettings.cs:211-218 | the entry is appended and registered exactly when its path had none; otherwise nothing changes; list and table stay in agreement |
| Settings.StylishSettings.RemovePathData | Assets/Plugins/StylishProjectView/Editor/StylishSettings.cs:220-224 | the entry's first occurrence leaves the list and its path leaves the table; agreement is kept when the table held this entry |
| Settings.StylishSettings.RebuildKeywordDictionary | Assets/Plugins/StylishProjectView/Editor/StylishSettings.cs:480 | with unique names the keyword table becomes the dictionary of named entries; with a duplicate it is left as it was and the result is false |
| Highlight.EndColor | Assets/Plugins/StylishProjectView/Editor/StylishHighlight.cs:237-238 | the colour at the right end of a gradient: the last colour key's colour with the last alpha key's alpha |
| Highlight.FadeKeys | Assets/Plugins/StylishProjectView/Editor/StylishHighlight.cs:214-217 | the fade gradient starts at the background colour and ends at the highlight colour, which is its end colour |
| Highlight.ConfigLines | Assets/Plugins/StylishProjectView/Editor/StylishHighlight.cs:50-61 | the lines reserved per mode: 2 for mixed modes or None, 4 for Color, 5 for Fade or Gradient, two more with text override |
| Highlight.ConfigLinesCoverRows | Assets/Plugins/StylishProjectView/Editor/StylishHighlight.cs:46-178 | the reserved lines hold every row the editor draws, and exactly those rows unless the text override is mixed |
| Highlight.StylishHighlight.GetStyle | Assets/Plugins/StylishProjectView/Editor/StylishHighlight.cs:14-28 | the serialized fields of the highlight, as one value |
| Highlight.StylishHighlight.Keys | Assets/Plugins/StylishProjectView/Editor/StylishHighlight.cs:210-232 | the gradient the texture shows: the background-to-highlight fade in Fade mode, the stored gradient in Gradient mode |
| Highlight.StylishHighlight.constructor | Assets/Plugins/StylishProjectView/Editor/StylishHighlight.cs:14-28 | the default style, no texture yet, marked for update |
| Highlight.StylishHighlight.FromStyle | Assets/Plugins/StylishProjectView/Editor/ExportSettings.cs:149 | a highlight read back from a file has exactly the file's style and no texture yet |
| Highlight.StylishHighlight.CopyFrom | Assets/Plugins/StylishProjectView/Editor/StylishHighlight.cs:30-44 | the style becomes the other's style, and the texture is marked stale |
| Highlight.StylishHighlight.GetConfigHeight | Assets/Plugins/StylishProjectView/Editor/StylishHighlight.cs:46-64 | the reserved lines, each a row height plus a 2-pixel gap except the last |
| Highlight.StylishHighlight.UpdateTexture | Assets/Plugins/StylishProjectView/Editor/StylishHighlight.cs:244-257 | while an update runs nothing changes; otherwise the texture shows the given gradient and is no longer stale; the style is untouched |
| Highlight.StylishHighlight.Draw | Assets/Plugins/StylishProjectView/Editor/StylishHighlight.cs:189-242 | None paints nothing and Color fills the background; Fade and Gradient re-render a missing or stale texture unless an update is running, and paint it with the gradient's end colour; the style is kept, a current texture stays current, and unless an update is blocked the texture shows the current style |
| Highlight.MarkChanged | Assets/Plugins/StylishProjectView/Editor/StylishHighlight.cs:180-185 | every edited target is marked stale and keeps its style and texture |
| HighlightPresets.RowFor | Assets/Plugins/StylishProjectView/Editor/StylishHighlight.cs:304-309 | the row is numbered from 1, in the preset's text colour and font when it overrides the text, otherwise in the label defaults |
| HighlightPresets.OnGUI | Assets/Plugins/StylishProjectView/Editor/StylishHighlight.cs:280-328 | "Add to Preset" works only for a single target and appends a copy of it; a pick copies that preset into every target and closes the popup; a minus removes that preset after the list is drawn; presets keep their styles; every row, the appended one included, is numbered and styled from its preset |
| HighlightPresets.DrawAndRemove | Assets/Plugins/StylishProjectView/Editor/StylishHighlight.cs:300-327 | draws every preset in order, applies a pick, then removes the clicked preset |
| HighlightPresets.AddToPreset | Assets/Plugins/StylishProjectView/Editor/StylishHighlight.cs:291-296 | the preset list grows by one new highlight whose style is the target's |
| HighlightPresets.DrawPresets | Assets/Plugins/StylishProjectView/Editor/StylishHighlight.cs:302-325 | one row per preset with its label; the popup closes exactly on a pick in range; the preset to remove is the clicked one, if any |
| HighlightPresets.DrawRow | Assets/Plugins/StylishProjectView/Editor/StylishHighlight.cs:304-319 | drawing a preset keeps every preset's style; only a pick of this row changes the targets, to its style |
| HighlightPresets.CopyIntoAll | Assets/Plugins/StylishProjectView/Editor/StylishHighlight.cs:315-316 | every target takes the preset's style and is marked stale |
| Icon.LayerTexture | Assets/Plugins/StylishProjectView/Editor/StylishIcon.cs:54 | a layer with a non-empty resource name in resource mode shows that built-in resource, otherwise its own texture |
| Icon.DrawnIsTexturedLayers | Assets/Plugins/StylishProjectView/Editor/StylishIcon.cs:52-55 | every drawn texture belongs to one of the layers and is the one it shows, and every layer with a texture is drawn |
| Icon.DrawnAppend | Assets/Plugins/StylishProjectView/Editor/StylishIcon.cs:52-55 | drawing two runs of layers one after the other draws what each run draws |
| Icon.UntexturedLayerDrawsNothing | Assets/Plugins/StylishProjectView/Editor/StylishIcon.cs:255-256 | a layer without a texture is skipped and takes no tint |
| Icon.Tinted | Assets/Plugins/StylishProjectView/Editor/StylishIcon.cs:264-265 | the layer colour blended with the tint, then multiplied by the selection overlay when selected |
| Icon.OverrideCalls | Assets/Plugins/StylishProjectView/Editor/StylishIcon.cs:253-272 | one draw call per drawn layer, the j-th tinted with the j-th tint |
| Icon.LayersFor | Assets/Plugins/StylishProjectView/Editor/StylishIcon.cs:47-49 | the small layers when small ones are asked for and exist, otherwise the normal ones |
| Icon.TintResetFallbackThrows | Assets/Plugins/StylishProjectView/Editor/StylishIcon.cs:258-264 | an icon with one textured normal layer and no small layers, drawn small with no tints, throws in the code as written; the reset has already stored white normal tints by then, so the next draw of the same icon succeeds in white |
| Icon.DrawCorrected | Assets/Plugins/StylishProjectView/Editor/StylishIcon.cs:240-276 | never throws; one call per textured layer in use; when the tints in use run out, both arrays are reset to white at their layer counts, otherwise both are kept |
| Icon.ResetTints | Assets/Plugins/StylishProjectView/Editor/StylishIcon.cs:258-263 | after running out, both tint arrays are white at their layer counts and the array in use follows the layers in use |
| Icon.AsWrittenAgreesOutsideFallback | Assets/Plugins/StylishProjectView/Editor/StylishIcon.cs:240-276 | except when small layers are asked for and there are none, the code as written draws exactly what the corrected draw does |
| Icon.DrawAsWritten | Assets/Plugins/StylishProjectView/Editor/StylishIcon.cs:240-276 | the code as written: never more calls than textured layers in use, one per textured layer when it completes, and a throw only when small layers are asked for and there are none |
| Icon.RefillAsWritten | Assets/Plugins/StylishProjectView/Editor/StylishIcon.cs:258-263 | the reset as written: both arrays white at their layer counts, the array in use sized by `small` alone rather than by the layers in use |
| Icon.LoopAsWrittenCalls | Assets/Plugins/StylishProjectView/Editor/StylishIcon.cs:253-272 | the loop as written only appends calls, one per textured layer; it throws at a textured layer, and only once the layers drawn reach the size of the list `small` chooses |
| Icon.StylishIcon.constructor | Assets/Plugins/StylishProjectView/Editor/StylishIcon.cs:29-37 | an icon with no layers |
| Icon.StylishIcon.Draw | Assets/Plugins/StylishProjectView/Editor/StylishIcon.cs:44-68 | one call per textured layer in use, in order, each in the layer's tint, darkened when selected |
| Icon.StylishIcon.AddLayer | Assets/Plugins/StylishProjectView/Editor/StylishIcon.cs:345 | a new layer is appended to the chosen list; the other list is untouched |
| Icon.StylishIcon.RemoveLastLayer | Assets/Plugins/StylishProjectView/Editor/StylishIcon.cs:346 | the chosen list loses its last layer; an empty list is reported and left alone |
| Icon.StylishIcon.InsertLayer | Assets/Plugins/StylishProjectView/Editor/StylishIcon.cs:393 | a new layer is inserted before layer i of the chosen list |
| Icon.StylishIcon.RemoveLayer | Assets/Plugins/StylishProjectView/Editor/StylishIcon.cs:394 | layer i of the chosen list is removed |
| Icon.Inserted | Assets/Plugins/StylishProjectView/Editor/StylishIcon.cs:393 | the list with x at position i and everything else shifted right by one |
| Icon.RemovedAt | Assets/Plugins/StylishProjectView/Editor/StylishIcon.cs:394 | the list without position i, everything after it shifted left by one |
| Icon.RemoveUndoesInsert | Assets/Plugins/StylishProjectView/Editor/StylishIcon.cs:393-394 | removing a layer right after inserting it there gives the list back |
| Icon.NewLayerDrawsNothing | Assets/Plugins/StylishProjectView/Editor/StylishIcon.cs:393 | a freshly inserted layer has no texture, so the icon draws as before |
| Icon.StylishIconOverride.constructor | Assets/Plugins/StylishProjectView/Editor/StylishIcon.cs:86-94 | mode None, blend None, no icon and no tints |
| Icon.StylishIconOverride.Draw | Assets/Plugins/StylishProjectView/Editor/StylishIcon.cs:240-276 | no icon draws nothing and keeps the tints; otherwise the calls and new tint arrays are those of the corrected draw; mode, blend and icon are kept |
| Icon.DrawLayers | Assets/Plugins/StylishProjectView/Editor/StylishIcon.cs:242-273 | the loop's calls and tint arrays are exactly the corrected draw's outcome |
| Icon.ConfigHeight | Assets/Plugins/StylishProjectView/Editor/StylishIcon.cs:99-105 | 68 pixels when all targets agree on a mode other than None, one line otherwise |
| Icon.SelectIcon | Assets/Plugins/StylishProjectView/Editor/StylishIcon.cs:224-231 | every target takes the icon and white tint arrays sized to its two layer lists |
| Icon.FreshTintsAreKept | Assets/Plugins/StylishProjectView/Editor/StylishIcon.cs:229-230 | after a pick the tint arrays fit the icon, so a draw keeps them and blends every layer with white |
| Icon.GetWindowSize | Assets/Plugins/StylishProjectView/Editor/StylishIcon.cs:446-462 | rows are the count capped at the screen's rows; columns are the ceiling of count over rows, so every icon has a place and no column is empty; 102 by 70 pixels per cell |
| ProjectView.ChildLevel | Assets/Plugins/StylishProjectView/Editor/ProjectViewGUI.cs:435-438 | a child's hierarchy level is one more than its parent's |
| ProjectView.GetHierarchyLevel | Assets/Plugins/StylishProjectView/Editor/ProjectViewGUI.cs:435-438 | never below -1, and -1 exactly for a path without '/' |
| ProjectView.SubfolderNames | Assets/Plugins/StylishProjectView/Editor/ProjectViewGUI.cs:428-433 | one name per subfolder the editor lists, without directory or extension |
| ProjectView.GetSubfolders | Assets/Plugins/StylishProjectView/Editor/ProjectViewGUI.cs:428-433 | a reordering of those names: the same names, each as often as listed |
| ProjectView.ExtensionsCollide | Assets/Plugins/StylishProjectView/Editor/ProjectViewGUI.cs:428-433 | "Assets/a.b" and "Assets/a.c" both give the name "a", so a name can repeat among the subfolders |
| ProjectView.SkippedUpFront | Assets/Plugins/StylishProjectView/Editor/ProjectViewGUI.cs:76-82 | exactly: the plug-in is off, the item is "Assets", or it is a folder directly under "Packages/" |
| ProjectView.Parent | Assets/Plugins/StylishProjectView/Editor/ProjectViewGUI.cs:443-445 | the prefix before the last '/', absent exactly when the path has no '/' |
| ProjectView.SiblingIndex | Assets/Plugins/StylishProjectView/Editor/ProjectViewGUI.cs:440-448 | -1 for a path without a parent, otherwise the first position of the item's name among its parent's sorted subfolder names; found exactly when the editor lists a subfolder of the parent with that name |
| ProjectView.LayerList | Assets/Plugins/StylishProjectView/Editor/ProjectViewGUI.cs:96-105 | the layers in order level, sibling, keyword, path, each present when found and each at its position in that order; an asset is drawn with the shared entry and its path entry only |
| ProjectView.ProjectView.constructor | Assets/Plugins/StylishProjectView/Editor/ProjectViewGUI.cs:33-40 | every table empty, a fresh shared entry without an icon and a fresh default highlight |
| ProjectView.ProjectView.ProjectWindowChanged | Assets/Plugins/StylishProjectView/Editor/ProjectViewGUI.cs:58-64 | every table is dropped, so the caches agree with the project as it is now |
| ProjectView.ProjectView.GetSiblingIndex | Assets/Plugins/StylishProjectView/Editor/ProjectViewGUI.cs:440-448 | -1 without a parent; otherwise the index among the cached subfolders, which is the host's answer when the cache agrees with the host |
| ProjectView.ProjectView.LookUp | Assets/Plugins/StylishProjectView/Editor/ProjectViewGUI.cs:87-89 | the instance ID, level and sibling tables are consulted as caches; with a consistent cache the answers are the host's and consistency is kept |
| ProjectView.ProjectView.GetAutoStylishData | Assets/Plugins/StylishProjectView/Editor/ProjectViewGUI.cs:162-172 | a folder shows the entry itself; an asset shows the shared entry, with the entry's highlight when asset levels are on and the neutral one otherwise |
| ProjectView.ProjectView.CollectLayers | Assets/Plugins/StylishProjectView/Editor/ProjectViewGUI.cs:96-105 | the item's layer list is rebuilt as `LayerList`; the caches are untouched |
| ProjectView.ProjectView.ItemOnGUI | Assets/Plugins/StylishProjectView/Editor/ProjectViewGUI.cs:66-105 | skipped items draw nothing and change nothing; bypassed items or a missing browser draw nothing; otherwise the layers are those of the item's level, sibling index, keyword and path |
| ItemDrawing.View | Assets/Plugins/StylishProjectView/Editor/ProjectViewGUI.cs:248-418 | the highlight mode, clear flag, text override and icon mode the draw routines read from an entry |
| ItemDrawing.LastClearOther | Assets/Plugins/StylishProjectView/Editor/ProjectViewGUI.cs:284-286 | the last layer that clears the ones before it, or 0 |
| ItemDrawing.LastReplace | Assets/Plugins/StylishProjectView/Editor/ProjectViewGUI.cs:269-272 | the last layer that replaces the icon, or 0 |
| ItemDrawing.HighlightStart | Assets/Plugins/StylishProjectView/Editor/ProjectViewGUI.cs:284-286 | highlight drawing starts at the last clearing layer; no later layer clears |
| ItemDrawing.IconStart | Assets/Plugins/StylishProjectView/Editor/ProjectViewGUI.cs:269-272 | for a folder, icon drawing starts at the last replacing layer; for an asset, at 0 |
| ItemDrawing.IconIndices | Assets/Plugins/StylishProjectView/Editor/ProjectViewGUI.cs:273-275 | the drawn icon layers all lie between the start and the end |
| ItemDrawing.IconIndicesExact | Assets/Plugins/StylishProjectView/Editor/ProjectViewGUI.cs:273-275 | the icons drawn are exactly the layers from the start on with an icon mode, in increasing order |
| ItemDrawing.LastOverride | Assets/Plugins/StylishProjectView/Editor/ProjectViewGUI.cs:294-302 | the last layer overriding the text, or -1 |
| ItemDrawing.TextStyle | Assets/Plugins/StylishProjectView/Editor/ProjectViewGUI.cs:294-302 | the label takes the text colour and font of the last layer overriding the text, and keeps its own when none does |
| ItemDrawing.LabelSelected | Assets/Plugins/StylishProjectView/Editor/ProjectViewGUI.cs:251-252 | the label shows as selected exactly when the item is selected, unless selection hiding is on and some layer has a highlight |
| ItemDrawing.ScanHighlightStart | Assets/Plugins/StylishProjectView/Editor/ProjectViewGUI.cs:376-378 | the forward scan finds `HighlightStart` |
| ItemDrawing.ScanIconStart | Assets/Plugins/StylishProjectView/Editor/ProjectViewGUI.cs:411-414 | the forward scan finds `IconStart` |
| ItemDrawing.HighlightCalls | Assets/Plugins/StylishProjectView/Editor/ProjectViewGUI.cs:379-380 | the highlight loop draws every layer from the start on, in order |
| ItemDrawing.IconCalls | Assets/Plugins/StylishProjectView/Editor/ProjectViewGUI.cs:415-417 | the icon loop draws exactly the layers from the start on that have an icon |
| ItemDrawing.ScanTextStyle | Assets/Plugins/StylishProjectView/Editor/ProjectViewGUI.cs:391-399 | the backward scan finds the label style of `TextStyle` |
| ItemDrawing.ListAreaDrawIcon | Assets/Plugins/StylishProjectView/Editor/ProjectViewGUI.cs:248-310 | the grid drawing plan; the editor's icon is painted over exactly for a folder with a replacing layer; the icons are drawn from their normal (not small) layers |
| ItemDrawing.ListAreaDrawIconAndLabel | Assets/Plugins/StylishProjectView/Editor/ProjectViewGUI.cs:312-367 | the list-row drawing plan; the icons are drawn from their small layers |
| ItemDrawing.TreeviewDrawIconAndLabel | Assets/Plugins/StylishProjectView/Editor/ProjectViewGUI.cs:369-418 | the tree-row drawing plan; the icons are drawn from their small layers |
| ItemDrawing.RowMatchesTree | Assets/Plugins/StylishProjectView/Editor/ProjectViewGUI.cs:312-418 | a list row that is not being renamed is drawn exactly like a tree row |
| ItemDrawing.GridMatchesRow | Assets/Plugins/StylishProjectView/Editor/ProjectViewGUI.cs:248-367 | the grid draws the same highlights, label and icon layers as a list row, but from the icons' normal layers where the row draws small ones |
| ItemDrawing.ReplacingLayerDrawn | Assets/Plugins/StylishProjectView/Editor/ProjectViewGUI.cs:409-417 | when a folder's own icon is hidden, the first icon drawn is the replacing layer's |
| ItemDrawing.HighlightsFromLastClear | Assets/Plugins/StylishProjectView/Editor/ProjectViewGUI.cs:376-380 | a layer's highlight is drawn exactly when it is at or after the last clearing layer |
| ItemDrawing.DrawItem | Assets/Plugins/StylishProjectView/Editor/ProjectViewGUI.cs:107-159 | no layers draws nothing; otherwise the plan of the routine for the view kind; the icon is painted over only in the grid |
| PathToggles.Current | Assets/Plugins/StylishProjectView/Editor/FolderInspector.cs:263-267 | the switch of the first path's entry; on only for a registered path |
| PathToggles.WalkLookup | Assets/Plugins/StylishProjectView/Editor/FolderInspector.cs:268-279 | every visited path ends as one visit leaves it, whatever the repeats; unvisited paths are untouched |
| PathToggles.WalkKeepsAllOn | Assets/Plugins/StylishProjectView/Editor/FolderInspector.cs:268-279 | the walk keeps every registered entry enabled or bypassed |
| PathToggles.StepKeepsAllOn | Assets/Plugins/StylishProjectView/Editor/FolderInspector.cs:270-277 | setting one switch keeps every registered entry enabled or bypassed |
| PathToggles.SetOne | Assets/Plugins/StylishProjectView/Editor/FolderInspector.cs:270-277 | one pass of the loop body: the path's switch takes the value, registering on an off-to-on change and unregistering on on-to-off; other entries are kept |
| PathToggles.SetRegistered | Assets/Plugins/StylishProjectView/Editor/FolderInspector.cs:270-277 | the loop body for a registered entry: the switch is set and the entry is unregistered exactly when both switches end off |
| PathToggles.SetFresh | Assets/Plugins/StylishProjectView/Editor/FolderInspector.cs:270-277 | the loop body for a fresh entry: it is registered exactly when switched on |
| PathToggles.SetAll | Assets/Plugins/StylishProjectView/Editor/FolderInspector.cs:268-279 | the switches after the loop are the walk over the paths; no other entry changes |
| PathToggles.FirstNonEmpty | Assets/Plugins/StylishProjectView/Editor/FolderInspector.cs:263-267 | the first non-empty path, present exactly when there is one |
| PathToggles.ToggledLookup | Assets/Plugins/StylishProjectView/Editor/FolderInspector.cs:263-296 | after both toggles every selected path holds the clicked values, other paths are untouched, and every registered entry is enabled or bypassed |
| PathToggles.DrawStylishToggles | Assets/Plugins/StylishProjectView/Editor/FolderInspector.cs:263-296 | the switches after both toggles, and the shown values are the clicked ones or the first path's |
| PathToggles.DrawStylishSection | Assets/Plugins/StylishProjectView/Editor/FolderInspector.cs:263-309 | the toggles, then the "Hide Selection Overlay" switch only when the first entry is enabled and not bypassed |
| FolderInspector.LoadedLookup | Assets/Plugins/StylishProjectView/Editor/FolderInspector.cs:136-145 | a name is a key after loading exactly when it was visited, with the toggle stored at its last occurrence |
| FolderInspector.PresetNames | Assets/Plugins/StylishProjectView/Editor/FolderInspector.cs:146 | the distinct non-empty preset names |
| FolderInspector.DisplayList | Assets/Plugins/StylishProjectView/Editor/FolderInspector.cs:146-164 | the preset names, then "Create Selected", or "No Preset" when there are none |
| FolderInspector.SavedList | Assets/Plugins/StylishProjectView/Editor/FolderInspector.cs:167-177 | one stored toggle per preset name |
| FolderInspector.LoadedAt | Assets/Plugins/StylishProjectView/Editor/FolderInspector.cs:136-145 | with no repeated name, the name at i is loaded with the toggle stored at i |
| FolderInspector.LoadThenSave | Assets/Plugins/StylishProjectView/Editor/FolderInspector.cs:136-179 | loading the stored toggles and saving them again gives them back (false past the end) |
| FolderInspector.UpdateKeepsToggles | Assets/Plugins/StylishProjectView/Editor/FolderInspector.cs:127-179 | rebuilding the dictionary and saving keeps the toggle of every preset name |
| FolderInspector.Chosen | Assets/Plugins/StylishProjectView/Editor/FolderInspector.cs:245 | the names whose toggle is on |
| FolderInspector.AllToggleConsistent | Assets/Plugins/StylishProjectView/Editor/FolderInspector.cs:83-118 | syncing makes the "All" toggle on exactly when every other toggle is, and changes no other; a click on "All" keeps this |
| FolderInspector.LoadToggleMap | Assets/Plugins/StylishProjectView/Editor/FolderInspector.cs:136-146 | the loading loop builds the loaded dictionary and keeps the first-seen order of its keys |
| FolderInspector.RestrictToggleMap | Assets/Plugins/StylishProjectView/Editor/FolderInspector.cs:148-159 | the rebuilt dictionary for the current names |
| FolderInspector.SaveList | Assets/Plugins/StylishProjectView/Editor/FolderInspector.cs:169-176 | the saving loop computes the saved list |
| FolderInspector.CreateFolders | Assets/Plugins/StylishProjectView/Editor/FolderInspector.cs:246-253 | a folder is created under a path exactly when it is asked for and not there yet; the calls go path by path, and for each path in the order of the asked names |
| FolderInspector.CreationsMembers | Assets/Plugins/StylishProjectView/Editor/FolderInspector.cs:246-253 | the ordered calls are exactly those for the asked names each non-empty path lacks |
| FolderInspector.TargetLists | Assets/Plugins/StylishProjectView/Editor/FolderInspector.cs:41-52 | each target's path and name with its toggle on, plus an "All" entry when several are selected |
| FolderInspector.FolderInspector.constructor | Assets/Plugins/StylishProjectView/Editor/FolderInspector.cs:14-19 | every list and dictionary empty |
| FolderInspector.FolderInspector.OnEnable | Assets/Plugins/StylishProjectView/Editor/FolderInspector.cs:29-59 | for folders: the target lists and the create buttons with their loaded toggles; for assets the folder lists are kept |
| FolderInspector.FolderInspector.RebuildCreateList | Assets/Plugins/StylishProjectView/Editor/FolderInspector.cs:134-165 | the buttons become the display list; the toggles are loaded from the settings or restricted to the current names |
| FolderInspector.FolderInspector.SaveCreateToggleList | Assets/Plugins/StylishProjectView/Editor/FolderInspector.cs:167-179 | the settings store the saved list; nothing else in them changes |
| FolderInspector.FolderInspector.Update | Assets/Plugins/StylishProjectView/Editor/FolderInspector.cs:127-132 | rebuilds the buttons, restricts the toggles and stores them |
| FolderInspector.FolderInspector.CreateSubfolder | Assets/Plugins/StylishProjectView/Editor/FolderInspector.cs:240-255 | creates the clicked name, or every chosen name, under every selected folder that lacks it |
| FolderInspector.FolderInspector.ClickCreate | Assets/Plugins/StylishProjectView/Editor/FolderInspector.cs:219-223 | a preset button creates its name; the last button creates the chosen names |
| FolderInspector.FolderInspector.ClickToggle | Assets/Plugins/StylishProjectView/Editor/FolderInspector.cs:228-231 | the preset's toggle flips and the toggles are stored |
| FolderInspector.FolderInspector.SyncAllToggle | Assets/Plugins/StylishProjectView/Editor/FolderInspector.cs:83-92 | the folder toggles become their synchronised form |
| FolderInspector.FolderInspector.ClickFolderToggle | Assets/Plugins/StylishProjectView/Editor/FolderInspector.cs:111-118 | the toggle takes the value; the "All" toggle sets every toggle |
| FolderInspector.FolderInspector.DrawFolderStylish | Assets/Plugins/StylishProjectView/Editor/FolderInspector.cs:259-311 | the stylish section for the selected folders' paths |
| AssetConfig.GetSelectedPath | Assets/Plugins/StylishProjectView/Editor/AssetConfig.cs:31-35 | exactly the paths of the selected main assets that are not the root folder, one per such object, in selection order |
| AssetConfig.FirstSelectedPath | Assets/Plugins/StylishProjectView/Editor/AssetConfig.cs:31-35 | the first path, the one the popup shows, is that of the first configurable object in the selection |
| AssetConfig.CreateStylishValidation | Assets/Plugins/StylishProjectView/Editor/AssetConfig.cs:10-14 | the menu item is enabled exactly when some selection can be configured |
| AssetConfig.NextHeight | Assets/Plugins/StylishProjectView/Editor/AssetConfig.cs:113-115 | the height never drops below the minimum, and changes only to the content height or the minimum |
| AssetConfig.AssetConfigPopup.Popup | Assets/Plugins/StylishProjectView/Editor/AssetConfig.cs:44-49 | the popup holds the paths at the minimum height |
| AssetConfig.AssetConfigPopup.GetWindowSize | Assets/Plugins/StylishProjectView/Editor/AssetConfig.cs:51-54 | the fixed width and the current height, never below the minimum |
| AssetConfig.AssetConfigPopup.OnGUI | Assets/Plugins/StylishProjectView/Editor/AssetConfig.cs:56-121 | the stylish section for the popup's paths; a repaint of the shown section resizes it to the content and asks for a repaint |
| AssetConfig.AssetConfigPopup.Resize | Assets/Plugins/StylishProjectView/Editor/AssetConfig.cs:113-120 | on a repaint that changes the height, takes the new height and asks for a repaint |
| Export.ExportIndex | Assets/Plugins/StylishProjectView/Editor/ExportSettings.cs:181 | the icon's first index in the list; -1 exactly for no icon or an icon not in the list |
| Export.ImportIconAsWritten | Assets/Plugins/StylishProjectView/Editor/ExportSettings.cs:155 | reads back exactly the indices inside the list, so -1 throws |
| Export.NoIconAsWrittenFails | Assets/Plugins/StylishProjectView/Editor/ExportSettings.cs:155 | an entry without an icon is written as -1, which the code as written cannot read back |
| Export.ImportIcon | Assets/Plugins/StylishProjectView/Editor/ExportSettings.cs:155 | -1 reads back as no icon, an index inside the list as that icon, and any other index fails as before |
| Export.IconRoundTrip | Assets/Plugins/StylishProjectView/Editor/ExportSettings.cs:145-183 | writing an icon reference and reading it back gives the reference, or no icon for one outside the list |
| Export.IndexRoundTrip | Assets/Plugins/StylishProjectView/Editor/ExportSettings.cs:145-183 | with no repeated icon, reading an index back and writing it again gives the index |
| Export.ExportIsDetermined | Assets/Plugins/StylishProjectView/Editor/ExportSettings.cs:115-143 | two files that both export the same settings are equal |
| Export.CreateExportSettings | Assets/Plugins/StylishProjectView/Editor/ExportSettings.cs:115-143 | the icons are always written; an icon-only export writes default switches and no lists; a full export writes the settings exactly |
| Export.ExportEntries | Assets/Plugins/StylishProjectView/Editor/ExportSettings.cs:135-138 | every entry is written, in order |
| Export.ExportPaths | Assets/Plugins/StylishProjectView/Editor/ExportSettings.cs:139-140 | every path entry is written, in order |
| Export.ExportPresets | Assets/Plugins/StylishProjectView/Editor/ExportSettings.cs:124 | every preset is written as its style |
| Export.CreateStylishData | Assets/Plugins/StylishProjectView/Editor/ExportSettings.cs:145-157 | an entry is read back exactly when its icon index reads back; it is new, and writing it again gives the file's entry (with the corrected icon read, see Findings) |
| Export.CreatePathData | Assets/Plugins/StylishProjectView/Editor/ExportSettings.cs:159-169 | a path entry is read back exactly when its icon index reads back; it is new, with the file's path, and writing it again gives the file's entry (with the corrected icon read, see Findings) |
| Export.CreateEntries | Assets/Plugins/StylishProjectView/Editor/ExportSettings.cs:104-107 | succeeds exactly when every icon index reads back, and the entries then write back as the file's (with the corrected icon read, see Findings) |
| Export.CreateIcons | Assets/Plugins/StylishProjectView/Editor/ExportSettings.cs:95-101 | one new icon per item of the file, writing back as it |
| Export.ImportPresets | Assets/Plugins/StylishProjectView/Editor/ExportSettings.cs:93 | one new highlight per style of the file, writing back as it |
| Export.CreatePaths | Assets/Plugins/StylishProjectView/Editor/ExportSettings.cs:108-109 | succeeds exactly when every icon index reads back; the entries then have the file's paths and write back as the file's (with the corrected icon read, see Findings) |
| Export.AddAll | Assets/Plugins/StylishProjectView/Editor/ExportSettings.cs:108-109 | registering entries with distinct paths on an empty registry lists them all, in order |
| Export.ImportSettings | Assets/Plugins/StylishProjectView/Editor/ExportSettings.cs:84-113 | an icon-only import appends the file's icons and keeps the rest; a full import reads back the switches, subfolders, presets and icons, succeeds exactly when every index and name reads back, and then the settings export as the file (with the corrected icon read, see Findings) |
| Export.ImportEntriesAndPaths | Assets/Plugins/StylishProjectView/Editor/ExportSettings.cs:102-111 | the cyclic, keyword and path entries and the tables of a full import; succeeds exactly when the whole import does (with the corrected icon read, see Findings) |
| Export.ImportEntries | Assets/Plugins/StylishProjectView/Editor/ExportSettings.cs:104-107 | the cyclic and keyword entries, which write back as the file's when every index reads back (with the corrected icon read, see Findings) |
| Export.ImportPathsAndTables | Assets/Plugins/StylishProjectView/Editor/ExportSettings.cs:108-110 | the path entries, then the tables; with distinct paths they write back as the file's (with the corrected icon read, see Findings) |
| Export.RebuildAfterImport | Assets/Plugins/StylishProjectView/Editor/ExportSettings.cs:110 | `RebuildTable` after the import fails exactly when a keyword entry has no name, and keeps what was read |
| Export.ImportPaths | Assets/Plugins/StylishProjectView/Editor/ExportSettings.cs:108-109 | each path entry is read back and registered; succeeds exactly when every index reads back (with the corrected icon read, see Findings) |
| Base.IndexOf | Assets/Plugins/StylishProjectView/Editor/ExportSettings.cs:181 | `List.IndexOf`: the first index of the value, -1 when absent |
| Base.RemoveFirst | Assets/Plugins/StylishProjectView/Editor/StylishSettings.cs:222 | `List.Remove`: the list without the first occurrence of the value |
| Base.Distinct | Assets/Plugins/StylishProjectView/Editor/FolderInspector.cs:146 | `Distinct()`: holds every value of the list exactly once and nothing else, in the order of first occurrence |
| Base.LastIndexOf | Assets/Plugins/StylishProjectView/Editor/ProjectViewGUI.cs:443 | `string.LastIndexOf`: the last position of the character, -1 when absent |
| Base.FileNameWithoutExtension | Assets/Plugins/StylishProjectView/Editor/ProjectViewGUI.cs:442 | `Path.GetFileNameWithoutExtension`: no '/' in the result, never longer than the path |
| Base.FileNameWithoutExtensionIsStem | Assets/Plugins/StylishProjectView/Editor/ProjectViewGUI.cs:442 | the file name after the last '/', up to but not including its last '.', or all of it without a '.' |
| Base.Without | Assets/Plugins/StylishProjectView/Editor/FolderInspector.cs:146 | `Where(s => s != v)`: only elements other than v, every one of them, no repeats added |

## Left out

- GUI layout and geometry: rectangles, the tree-view test, fade widths in pixels, and the toolbar of the settings inspector. The draw routines produce a plan of which layers get highlight and icon drawing and how the label looks.
- `DrawFolderSelection` of the folder inspector is commented out in the source; only its toggle logic (`SyncAllToggle`, `ClickFolderToggle`) is modelled.
- The help box of the asset popup, and the field editing of the icon and highlight inspectors (`DrawConfig`). Of those inspectors only the reserved row count and the marking of edited highlights as stale are modelled.
- `CreateStylish`, `handleCommand`, `SelectInFolderTree` and the callers of `DelayedCall`: menu and selection glue with no state of their own.
- Floating point: colours are four reals and colour arithmetic is exact.
- JSON and file I/O, `EditorJsonUtility`, saving the asset and repainting the Project window. A null name written to a file reads back as an empty string; the model keeps it absent.
- The reflection shims, discovery of the settings asset, and the reorderable-list callbacks of the settings inspector, including its exclusion between automatic level and sibling cycling.
- `DestroyImmediate` in `Clear`: objects are not destroyed in the model.
- Texture generation: a texture is represented by the gradient keys it was rendered from.
- The current time, instance IDs, subfolder listings, built-in resources and folder creation are parameters.
- ProjectView.GetSubfolders: `OrderBy(f => f)` is the host's culture-aware string order. The model takes the host's sort as given and states only that it reorders the names (`EditorHost`), not which order it produces.
- Assets/Kings/scripts/valueDefinitions.cs is not part of this model.
- Import creates every entry of a list before registering any of them; the source interleaves the two. The final state is the same.
- Export.ImportSettings: a full import shares the preset objects it reads, while the model creates a new highlight per preset style. The round trip (`Exports`) is stated only when the file's paths are distinct; with a repeated path only the first entry is registered.
- Icon.StylishIconOverride.Draw: models the corrected tint reset. As written, an icon with no small layers drawn small by an override that has run out of tints throws at StylishIcon.cs:264 (Icon.TintResetFallbackThrows).
- Icon.DrawLayers: models the corrected loop, for the same reason as Icon.StylishIconOverride.Draw.
- Export.ImportSettings: the whole import chain (CreateStylishData, CreatePathData, CreateEntries, CreatePaths, ImportEntries, ImportPaths, ImportEntriesAndPaths, ImportPathsAndTables) reads icon indices with the corrected ImportIcon, not ImportIconAsWritten. As written, a full import throws at the first entry without an icon (ExportSettings.cs:155), after `Clear` (line 89) and the icon append (lines 95-101) have already run; NoIconAsWrittenFails exhibits the failing read.
- Export.ImportSettings: a keyword entry whose name was null is exported, and read back by the source with the name "", so the source's import registers the keyword "" and succeeds; the model keeps the name absent, so its import of such a file fails (Export.RebuildAfterImport).
- Export.ImportSettings: requires `WellFormed(e)`, that every gradient in the file has keys, as Unity guarantees for every gradient it writes.
- PathToggles.DrawStylishToggles: when both toggles change in one pass, the source may replace an entry with a fresh one. The model states the enable and bypass switches of every path, not which object holds them.
- PathToggles.DrawStylishToggles: requires a non-empty path, because the source's `datas.First()` throws on an empty selection, and the inspector and popup always have a target. The same holds for FolderInspector.FolderInspector.DrawFolderStylish and AssetConfig.AssetConfigPopup.OnGUI.
- PathToggles.SetOne: requires `Good`, the invariant that every registered entry is enabled or bypassed; every operation that changes the switches keeps it.
- Settings.StylishSettings.RemovePathData: list and table stay in agreement only when the table held this very entry for its path.
- Settings.StylishSettings.GetPathData: of the stylish data in a fresh entry, only that it is new is stated.
- FolderInspector: a "Create Selected" button name can coincide with a preset named "Create Selected"; the model keeps the source's behaviour and proves nothing about that case.
- Icon.StylishIcon.RemoveLastLayer: on an empty list the source throws; the model reports it and leaves the list alone.

## Findings

| source | as written | input that shows it | evidently intended | confidence | as-written member | corrected member |
|---|---|---|---|---|---|---|
| Assets/Plugins/StylishProjectView/Editor/ExportSettings.cs:155 | an entry without an icon is exported with `IndexOf(null) == -1`, and import reads `stylishIconList[-1]`, which throws after `Clear` has emptied the settings | any settings with a cyclic, keyword or path entry whose override has no icon, exported and then imported | -1 reads back as "no icon", so export followed by import gives the settings back | not executed | Export.NoIconAsWrittenFails | Export.IconRoundTrip |
| Assets/Plugins/StylishProjectView/Editor/StylishIcon.cs:258-264 | after running out of tints the reset picks the tint array by `small`, but the layers fall back to the normal ones when the icon has no small layers, so it reads the empty small array; the reset has already stored white arrays, so the next draw succeeds | an icon with one textured normal layer and no small layers, drawn small by an override with no tints | the tint array follows the layers actually drawn | not executed | Icon.TintResetFallbackThrows | Icon.DrawCorrected |
