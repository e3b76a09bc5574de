# ThinkFlow whiteboard: a Dafny model of the page logic and the plan-document text handling

ThinkFlow takes a student team through four pages and a back end:

- **The welcome page.** The team enters an industry, a team size and the members' skills. The page sends the skills to the hashtag service and merges the form and the returned trend tags into the session snapshot (`thinkflowUserData`).
- **The quadrant whiteboard.** It reads the industry and trend tags back and lets the team place text and sticky notes in four quadrants. It also deletes notes, edits them, and clamps them on drag release. It groups the notes by quadrant into the idea request, parses the returned idea text into numbered ideas, and stores them in the snapshot with a fixed sample team.
- **The idea-selection page.** It turns the stored ideas into blocks of lines, lets one be chosen, checks the snapshot for the required fields, normalises the team members and prepares the plan request.
- **The download page.** It cleans the stored PDF path and links it under the back end's address.
- **The back end.** It filters emoji, takes the idea title and the summary points from the selected idea, and keeps the non-blank lines of each generated user-story reply.

The model is split into these modules:

- `Text`: JavaScript and Python string operations: `trim`/`strip`, `split`/`join`, `indexOf`, first-occurrence `replace`, and decimal rendering.
- `Json`: parsed JSON values, JavaScript truthiness, the stored-item outcome, and object spread.
- `IdeaParser`: the whiteboard's `/Idea \d+:/` split and renumbering.
- `Whiteboard`: the `Board` class with its tool, colour and notes state, and the pure updates its handlers make.
- `TeamForm`: the welcome page, as the `TeamFormPage` class.
- `SelectIdea`: the `SelectIdeaPage` class and the plan request.
- `Download`: the download link.
- `PdfText`: the back end's text handling.

Things outside the model become parameters:

- the browser's storage reads (`Stored`: absent, unparsable or parsed);
- the responses of the back-end services (`Option<Json>`, with `None` for a request that fails as the calling page sees it);
- the quadrants' bounding rectangles and container sizes;
- the `Date.now()` identifier of a new note.

## Model

| member | source | states |
|---|---|---|
| Whiteboard.FirstHit | frontend/src/app/whiteboard/page.tsx:147-156 | the chosen quadrant contains the click (edges included), no earlier rendered quadrant does, and `None` only when no quadrant contains it |
| Whiteboard.Clicked | frontend/src/app/whiteboard/page.tsx:144-178 | without an active tool or outside every quadrant nothing changes; otherwise the tool and the pending colour are reset, and the text tool appends a yellow text note, at the click's position relative to the quadrant, while the sticky tool with a colour appends a note of that colour; delete mode and a sticky tool with no colour leave the notes alone |
| Whiteboard.Board.BoardClick | frontend/src/app/whiteboard/page.tsx:144-178 | the loop over the quadrants leaves the board in the state `Clicked` describes and keeps every note inside a quadrant index |
| Whiteboard.NoteClicked | frontend/src/app/whiteboard/page.tsx:352-357 | in delete mode the clicked note is removed and the tool is reset, with the colour untouched; in any other mode nothing changes |
| Whiteboard.Without | frontend/src/app/whiteboard/page.tsx:354 | no remaining note has the removed identifier, and the list does not grow |
| Whiteboard.WithoutMembers | frontend/src/app/whiteboard/page.tsx:354 | the filter keeps exactly the notes with another identifier |
| Whiteboard.WithoutAppend | frontend/src/app/whiteboard/page.tsx:354 | filtering distributes over concatenation, so the order of the kept notes is preserved |
| Whiteboard.WithoutPlaced | frontend/src/app/whiteboard/page.tsx:354 | deleting keeps every remaining note in a valid quadrant |
| Whiteboard.WithoutAbsent | frontend/src/app/whiteboard/page.tsx:354 | deleting an identifier no note carries changes nothing |
| Whiteboard.Board.NoteClick | frontend/src/app/whiteboard/page.tsx:352-357 | the note's own handler moves the board to the state `NoteClicked` describes |
| Whiteboard.Board.ClickOnNote | frontend/src/app/whiteboard/page.tsx:144-178 | a click on a note runs the note's handler and then the board's, both reading the state from before the click: outside delete mode the result is the board click's; in delete mode the tool ends cleared, the colour is the board click's, and the note with that id is removed from the board click's notes |
| Whiteboard.WithContent | frontend/src/app/whiteboard/page.tsx:185-189 | the note with the identifier gets the new content; every other field and every other note is unchanged |
| Whiteboard.Board.UpdateNote | frontend/src/app/whiteboard/page.tsx:185-189 | the notes become `WithContent` of the old notes and stay placed |
| Whiteboard.Clamp | frontend/src/app/whiteboard/page.tsx:369-372 | the clamped coordinate lies in `[0, max(0, limit)]`, is unchanged when already in `[0, limit]`, becomes 0 below 0 and `max(0, limit)` beyond the limit |
| Whiteboard.Moved | frontend/src/app/whiteboard/page.tsx:363-373 | only `x` and `y` change; a missing container leaves the note as it is; otherwise each coordinate lies between 0 and the container size less the 150 by 100 note footprint (0 when that is negative), and equals the released position when that already lies in range |
| Whiteboard.DropNote | frontend/src/app/whiteboard/page.tsx:361-376 | only the released note moves, as `Moved` says; the others are unchanged |
| Whiteboard.Board.DragStop | frontend/src/app/whiteboard/page.tsx:361-376 | the notes become `DropNote` of the old notes and stay placed |
| Whiteboard.Board.SelectTool | frontend/src/app/whiteboard/page.tsx:283-290 | the delete and text buttons, the only callers, set the tool and leave the colour and the notes alone |
| Whiteboard.Board.StickyButton | frontend/src/app/whiteboard/page.tsx:297-300 | the sticky button selects the sticky tool and clears the pending colour, which shows the palette |
| Whiteboard.Board.PlaceStickyNote | frontend/src/app/whiteboard/page.tsx:180-183 | choosing a palette colour arms the sticky tool with that colour |
| Whiteboard.Board.constructor | frontend/src/app/whiteboard/page.tsx:33-61 | the board starts with no tool, no colour and no notes; the industry and the trend tags are those read from the snapshot on mount |
| Whiteboard.Bucket | frontend/src/app/whiteboard/page.tsx:74-83 | a quadrant's list holds only non-empty contents and never more entries than there are notes |
| Whiteboard.BucketTrimmed | frontend/src/app/whiteboard/page.tsx:76 | every grouped content is trimmed |
| Whiteboard.BucketAppend | frontend/src/app/whiteboard/page.tsx:74-83 | grouping distributes over concatenation, so each quadrant's list follows the notes' order |
| Whiteboard.BucketsPartition | frontend/src/app/whiteboard/page.tsx:74-83 | every non-blank note in quadrant 0 to 3 lands in exactly one of the four lists |
| Whiteboard.Board.GroupNotes | frontend/src/app/whiteboard/page.tsx:65-83 | the `forEach` loop builds the industry and the four quadrant lists, pain points, ideas, goals and constraints, as `Bucket` defines them; on a board whose notes are all placed, the lists hold as many entries as there are non-blank notes |
| Whiteboard.PlacedNotesRouted | frontend/src/app/whiteboard/page.tsx:74-83 | when every note lies in one of the four quadrants, every non-blank note is routed to a list |
| Whiteboard.PlacedNotesGrouped | frontend/src/app/whiteboard/page.tsx:65-83 | when every note lies in one of the four quadrants, no non-blank note is dropped and none is counted twice |
| Whiteboard.HashTags | frontend/src/app/whiteboard/page.tsx:58 | every trend tag starts with `#`, and there are no more tags than pieces |
| Whiteboard.HashTagsAppend | frontend/src/app/whiteboard/page.tsx:58 | the tags of consecutive pieces are the tags of each part, in order |
| Whiteboard.HashTagsOne | frontend/src/app/whiteboard/page.tsx:58 | an empty piece gives no tag, any other piece one tag `#` + its trimmed text; with `HashTagsAppend` this fixes the result for every list |
| Whiteboard.DoubleHashDropped | frontend/src/app/whiteboard/page.tsx:58 | in `a##b` the empty piece between the two `#` gives no tag |
| Whiteboard.TrailingHashDropped | frontend/src/app/whiteboard/page.tsx:58 | in `a#` the empty piece after the final `#` gives no tag |
| Whiteboard.HashTagsOfNonEmpty | frontend/src/app/whiteboard/page.tsx:58 | when no piece is empty, each piece gives one tag `#` + its trimmed text, in order |
| Whiteboard.TrendTagsOfJoined | frontend/src/app/whiteboard/page.tsx:57-58 | a trend string `#a#b…` written from non-empty tags without `#` gives back one tag per piece, trimmed and prefixed with `#` |
| Whiteboard.BlankTagKept | frontend/src/app/whiteboard/page.tsx:58 | a blank piece passes the `filter(Boolean)`, which runs before the trim, and yields the bare tag `#` |
| Whiteboard.IdeasUpdate | frontend/src/app/whiteboard/page.tsx:122-132 | the keys written after an idea request: the parsed ideas, the page's industry, a team size of 3 and the three-member sample team |
| Whiteboard.SaveIdeas | frontend/src/app/whiteboard/page.tsx:85-141 | a failed request has its own outcome; a response without non-blank `ideas` text is rejected; otherwise the generated list is `ParseIdeas` of the text, and the snapshot holds the previous snapshot's keys (an unparsable one reads as `{}`) overwritten by the four new keys, with every other previous key kept |
| Whiteboard.IdeasTextSaved | frontend/src/app/whiteboard/page.tsx:96-110 | any non-blank `ideas` string is accepted and parsed |
| Whiteboard.MarkerOnlyParsesToNothing | frontend/src/app/whiteboard/page.tsx:96-109 | a text that is a single marker such as `Idea 1:` passes the non-blank check but parses to no idea |
| Whiteboard.MarkerOnlyResponseStoresNoIdeas | frontend/src/app/whiteboard/page.tsx:96-134 | such a response is accepted and stores an empty ideas list |
| Whiteboard.SingleMarkerExample | frontend/src/app/whiteboard/page.tsx:106 | `Idea 1:` is one whole marker |
| IdeaParser.DigitRun | frontend/src/app/whiteboard/page.tsx:106 | the run covers only digits and stops before a non-digit or the end, as `\d+` matches greedily |
| IdeaParser.FirstMarker | frontend/src/app/whiteboard/page.tsx:106 | the found position holds a marker and none comes before it; `None` means no marker at all |
| IdeaParser.SplitReassembles | frontend/src/app/whiteboard/page.tsx:106 | the split pieces, with the removed markers put back between them in order, are the input; there is one more piece than markers, each removed separator is one whole marker (`Idea`, a space, digits, a colon), and no piece contains a marker |
| IdeaParser.MarkersWhole | frontend/src/app/whiteboard/page.tsx:106 | every removed separator is exactly one marker from its `I` up to its colon |
| IdeaParser.MarkerText | frontend/src/app/whiteboard/page.tsx:106 | the text a marker match spans is itself a marker that ends where the text ends |
| IdeaParser.SplitUnfold | frontend/src/app/whiteboard/page.tsx:106 | the split cuts at the leftmost marker and goes on after its end |
| IdeaParser.PiecesHaveNoMarker | frontend/src/app/whiteboard/page.tsx:106 | no piece of the split contains a marker |
| IdeaParser.TrimAll | frontend/src/app/whiteboard/page.tsx:107 | each chunk is trimmed, in place |
| IdeaParser.NonEmpty | frontend/src/app/whiteboard/page.tsx:108 | only non-empty chunks remain |
| IdeaParser.NonEmptyMembers | frontend/src/app/whiteboard/page.tsx:108 | the filter keeps exactly the non-empty chunks |
| IdeaParser.NonEmptyAppend | frontend/src/app/whiteboard/page.tsx:108 | the filter distributes over concatenation, so the kept chunks keep their order and their multiplicity |
| IdeaParser.NonEmptyOne | frontend/src/app/whiteboard/page.tsx:108 | one chunk is kept exactly when it is not empty; with `NonEmptyAppend` this fixes the result for every list |
| IdeaParser.Renumber | frontend/src/app/whiteboard/page.tsx:109 | the chunk at position k becomes `Idea <k+1>: ` + the chunk |
| IdeaParser.ParseIdeas | frontend/src/app/whiteboard/page.tsx:104-109 | one idea per trimmed non-empty chunk, numbered from 1 in order, whatever numbers the input used |
| IdeaParser.ChunksAreClean | frontend/src/app/whiteboard/page.tsx:105-108 | every chunk is non-empty, trimmed and free of markers, so the renumbered ideas hold exactly one marker each, at the front |
| IdeaParser.TrimHasNoMarker | frontend/src/app/whiteboard/page.tsx:107 | trimming a piece cannot create a marker |
| IdeaParser.BlankParsesToNothing | frontend/src/app/whiteboard/page.tsx:104-109 | whitespace-only text gives no ideas |
| IdeaParser.ParseExample | frontend/src/app/whiteboard/page.tsx:104-109 | `Idea 7: Foo\nBar\nIdea 2: Baz` becomes `Idea 1: Foo\nBar` and `Idea 2: Baz` |
| IdeaParser.ExampleSplit | frontend/src/app/whiteboard/page.tsx:106 | that text splits into an empty piece and the two idea bodies with their surrounding whitespace |
| TeamForm.EmptyRows | frontend/src/app/page.tsx:19 | k rows, all with an empty name and empty skills |
| TeamForm.SliceEnd | frontend/src/app/page.tsx:20 | `slice(0, size)` ends within the list: a negative size counts from the end, and `NaN` counts as 0 |
| TeamForm.Resized | frontend/src/app/page.tsx:16-22 | a non-negative size gives exactly that many rows, the existing ones first and empty rows after; a negative size drops that many rows from the end; `NaN` empties the list |
| TeamForm.ResizedIdempotent | frontend/src/app/page.tsx:16-22 | for a non-negative or `NaN` size, running the effect again changes nothing |
| TeamForm.ShrinkThenGrow | frontend/src/app/page.tsx:16-22 | shrinking to k rows and growing back to n keeps the first k rows and refills the rest with empty rows: what was typed in the cut rows is lost |
| TeamForm.TeamFormPage.ResizeMembers | frontend/src/app/page.tsx:16-22 | the pad-then-slice loop leaves the members `Resized` for the current size, settled for any non-negative size |
| TeamForm.TeamFormPage.constructor | frontend/src/app/page.tsx:12-22 | the page starts with the industry `Healthcare`, a size of 3 and, after the mount effect, three empty rows |
| TeamForm.TeamFormPage.SetTeamSize | frontend/src/app/page.tsx:96 | the parsed size is stored; the resize effect runs only when the size differs from the current one |
| TeamForm.TeamFormPage.SetIndustry | frontend/src/app/page.tsx:85 | the industry field takes the typed value |
| TeamForm.WithName | frontend/src/app/page.tsx:122-126 | only the edited row's name changes |
| TeamForm.TeamFormPage.EditName | frontend/src/app/page.tsx:122-126 | the members become `WithName` of the old members and stay settled |
| TeamForm.WithSkills | frontend/src/app/page.tsx:133-137 | only the edited row's skills change |
| TeamForm.TeamFormPage.EditSkills | frontend/src/app/page.tsx:133-137 | the members become `WithSkills` of the old members and stay settled |
| TeamForm.Standardize | frontend/src/app/page.tsx:26-29 | each row's name and skills are trimmed, row for row |
| TeamForm.StandardizeIdempotent | frontend/src/app/page.tsx:26-29 | standardised rows are stripped, a blank field becomes empty, and standardising again changes nothing |
| TeamForm.RequestSkills | frontend/src/app/page.tsx:36-39 | the hashtag request lists each row's trimmed skills, in row order |
| TeamForm.MembersJson | frontend/src/app/page.tsx:52 | one JSON object per row, in order |
| TeamForm.Payload | frontend/src/app/page.tsx:49-54 | the payload has exactly the keys `industry`, `teamSize`, `teamMembers` and `trends` |
| TeamForm.Continue | frontend/src/app/page.tsx:24-64 | a failed request or an unparsable stored snapshot ends in the alert with nothing stored; otherwise the new snapshot has the old keys plus the payload keys, the payload wins on shared keys, the members are standardised, the trends default to `""`, and every other old key is kept |
| TeamForm.MissingTrends | frontend/src/app/page.tsx:47 | a response without a truthy `trends` stores the empty string |
| TeamForm.ContinueTwice | frontend/src/app/page.tsx:56-58 | continuing again with the same form and response over the stored result stores the same snapshot |
| TeamForm.WhiteboardReadsSnapshot | frontend/src/app/page.tsx:49-58 | the whiteboard's mount reads back the industry typed here and the tags of a string trend |
| SelectIdea.ElementBlock | frontend/src/app/select-idea/page.tsx:28-30 | a string element gives at least one line and no line holds a line break; any other element gives an empty block |
| SelectIdea.ElementBlocks | frontend/src/app/select-idea/page.tsx:28-30 | one block per element, in order |
| SelectIdea.PrimaryBlocks | frontend/src/app/select-idea/page.tsx:14-34 | an unparsable or `null` snapshot makes the read throw; an `ideas` array gives one block per element, in order, each the element's trimmed lines or no line for a non-string (`ElementBlocks`); an `ideas` string gives one block holding the trimmed string; anything else gives no block |
| SelectIdea.BackupBlocks | frontend/src/app/select-idea/page.tsx:36-50 | the fallback gives blocks only for a parsed array of strings, and then one block per element, in order, each the element's trimmed lines (`ElementBlocks`), which join back to the trimmed string |
| SelectIdea.StructureIdeas | frontend/src/app/select-idea/page.tsx:14-59 | the fallback list is read only when the snapshot gives no block, and a throwing read leaves the page without ideas |
| SelectIdea.SelectedIdeaLines | frontend/src/app/select-idea/page.tsx:67 | the text sent for a stored idea is that idea trimmed, and the back end's line split of it gives the same lines |
| SelectIdea.SkillList | frontend/src/app/select-idea/page.tsx:92 | a skills string gives at least one skill; no skill holds a comma and every skill is trimmed |
| SelectIdea.SkillListOfJoined | frontend/src/app/select-idea/page.tsx:92 | skills written with commas are read back as those skills, trimmed |
| SelectIdea.SkillsSpacing | frontend/src/app/select-idea/page.tsx:92 | spaces around the commas are dropped: `x, y ,z` gives `x`, `y`, `z` |
| SelectIdea.EmptySkills | frontend/src/app/select-idea/page.tsx:92 | an empty skills string gives one empty skill, not an empty list |
| SelectIdea.NormalizedSkills | frontend/src/app/select-idea/page.tsx:90-95 | a string becomes its trimmed comma list, an array is kept, and anything else becomes `[]` |
| SelectIdea.NormalizedMember | frontend/src/app/select-idea/page.tsx:88-96 | a member becomes exactly `{name, skills}`, with a falsy name replaced by `""` |
| SelectIdea.NormalizeMembers | frontend/src/app/select-idea/page.tsx:88-96 | the map throws exactly when a member is `null`; otherwise each member is normalised, in order |
| SelectIdea.PlanRequest | frontend/src/app/select-idea/page.tsx:68-106 | no snapshot does nothing; an unparsable or `null` snapshot, or a `null` member, throws; a missing or falsy industry or team size, or an empty or non-array member list, gives the missing-fields alert; otherwise the request has the snapshot's keys without `ideas` plus the normalised members and the selected idea's text, and every other key keeps its value |
| SelectIdea.PdfResult | frontend/src/app/select-idea/page.tsx:116-122 | the PDF path is stored exactly when the response has a truthy `file_url`, and it is that value |
| SelectIdea.ServedPdfLinked | frontend/src/app/select-idea/page.tsx:117-119 | a file the back end serves under `/static/` is stored and linked unchanged |
| SelectIdea.SelectIdeaPage.constructor | frontend/src/app/select-idea/page.tsx:10-59 | after the mount effect the page shows `StructureIdeas` of the two stored lists, with nothing selected |
| SelectIdea.SelectIdeaPage.Select | frontend/src/app/select-idea/page.tsx:61-63 | a click selects that idea |
| SelectIdea.SelectIdeaPage.GeneratePlan | frontend/src/app/select-idea/page.tsx:65-127 | without a selection the page asks for one; otherwise it prepares `PlanRequest` for the selected block's lines joined by line breaks |
| Download.CleanPath | frontend/src/app/generate-pdf/page.tsx:13 | each first-occurrence replacement shortens the path by what it saves, and a path without `./` passes through |
| Download.DotSlashInParent | frontend/src/app/generate-pdf/page.tsx:13 | a path holding `../` also holds `./` |
| Download.DownloadUrl | frontend/src/app/generate-pdf/page.tsx:8-17 | there is no link exactly when the stored path is missing or empty; otherwise the link is the host followed by the cleaned path |
| Download.ServedPathUnchanged | frontend/src/app/generate-pdf/page.tsx:13-14 | a path `/static/<name>` whose name has no `/` is linked exactly as returned |
| Download.StaticExample | frontend/src/app/generate-pdf/page.tsx:13-14 | `/static/x.pdf` is linked as `http://127.0.0.1:8000/static/x.pdf` |
| Download.DoublyRelative | frontend/src/app/generate-pdf/page.tsx:13 | `../../a` becomes `/./a`: only the first `../` is rewritten |
| PdfText.RemoveEmojis | backend/api_calls/page3_build_pdf.py:29-38 | the result is no longer than the input and holds no code point of the six ranges |
| PdfText.RemoveEmojisMembers | backend/api_calls/page3_build_pdf.py:29-38 | exactly the characters outside the ranges survive |
| PdfText.RemoveEmojisAppend | backend/api_calls/page3_build_pdf.py:38 | the filter distributes over concatenation, so the kept characters stay in order |
| PdfText.RemoveEmojisUnchanged | backend/api_calls/page3_build_pdf.py:38 | emoji-free text passes through |
| PdfText.RemoveEmojisIdempotent | backend/api_calls/page3_build_pdf.py:38 | filtering twice is filtering once |
| PdfText.IdeographsErased | backend/api_calls/page3_build_pdf.py:36 | the range U+24C2 to U+1F251 covers the CJK ideographs, so such text is erased entirely |
| PdfText.IdeaLines | backend/api_calls/page3_build_pdf.py:82 | the stripped idea splits into at least one line, none holding a line break |
| PdfText.IdeaTitle | backend/api_calls/page3_build_pdf.py:82-83 | the title is the emoji-filtered text before the first line break of the stripped idea (the whole of it without a break); the `Unnamed Idea` fallback is never reached |
| PdfText.CleanPoint | backend/api_calls/page3_build_pdf.py:84 | a cleaned point is no longer than its line and holds no emoji |
| PdfText.Points | backend/api_calls/page3_build_pdf.py:84 | there are no more points than lines |
| PdfText.PointsClean | backend/api_calls/page3_build_pdf.py:84 | no summary point holds an emoji |
| PdfText.PointsAppend | backend/api_calls/page3_build_pdf.py:84 | the comprehension distributes over concatenation and keeps the points in order |
| PdfText.PointsOfBullets | backend/api_calls/page3_build_pdf.py:84 | when every line starts with a dash after stripping, each line gives one point, cleaned, in order |
| PdfText.PointsOfProse | backend/api_calls/page3_build_pdf.py:84 | lines that do not start with a dash give no point |
| PdfText.SummaryAfterTitle | backend/api_calls/page3_build_pdf.py:82-84 | the first line is the title and is never a point, even when it starts with a dash |
| PdfText.BulletCleaned | backend/api_calls/page3_build_pdf.py:84 | a bullet `- text` with clean text is a point and is cleaned to `text` |
| PdfText.TabBulletKeepsDash | backend/api_calls/page3_build_pdf.py:84 | a tab before the dash stops `strip("- ")`, so the point keeps its `- ` even though the line counts as a point |
| PdfText.NonBlankLines | backend/api_calls/page3_build_pdf.py:65 | no kept line is empty, and no more lines are kept than given |
| PdfText.NonBlankLinesAppend | backend/api_calls/page3_build_pdf.py:65 | the comprehension distributes over concatenation and keeps the lines in order |
| PdfText.NonBlankLinesOne | backend/api_calls/page3_build_pdf.py:65 | one line is kept, stripped, exactly when it is not blank; with `NonBlankLinesAppend` this fixes the result for every list |
| PdfText.BlankLineDropped | backend/api_calls/page3_build_pdf.py:65 | a blank line anywhere leaves no trace: the lines around it are kept as they would be without it |
| PdfText.StoryLinesClean | backend/api_calls/page3_build_pdf.py:64-65 | every kept story line is non-empty, stripped and free of line breaks |
| PdfText.StoryLinesOfJoined | backend/api_calls/page3_build_pdf.py:64-65 | a reply made of stripped, non-blank lines gives exactly those lines back |
| PdfText.StoryLinesOfEmpty | backend/api_calls/page3_build_pdf.py:64-65 | an empty reply gives no story line |
| Text.Trim | frontend/src/app/whiteboard/page.tsx:107 | the trimmed text is empty exactly for blank input, and otherwise starts and ends with a non-space |
| Text.TrimIdempotent | frontend/src/app/whiteboard/page.tsx:107 | trimming twice is trimming once |
| Text.Strip | backend/api_calls/page3_build_pdf.py:84 | `strip("- ")` leaves a slice of the input whose ends are not in the set, and is empty exactly when every character is |
| Text.Split | frontend/src/app/select-idea/page.tsx:29 | a split gives at least one piece, and no piece holds the separator |
| Text.JoinSplit | frontend/src/app/select-idea/page.tsx:29 | joining the pieces with the separator gives back the input |
| Text.SplitJoin | frontend/src/app/select-idea/page.tsx:92 | splitting joined separator-free pieces gives back the pieces |
| Text.Find | frontend/src/app/generate-pdf/page.tsx:13 | the found position is the leftmost occurrence, and `None` means there is none |
| Text.ReplaceFirst | frontend/src/app/generate-pdf/page.tsx:13 | without an occurrence the text is unchanged; otherwise the length changes by the difference of the two lengths |
| Text.ReplaceFirstAt | frontend/src/app/generate-pdf/page.tsx:13 | the leftmost occurrence is the one replaced, and everything around it is kept |
| Text.NatToStringValue | frontend/src/app/whiteboard/page.tsx:109 | the rendered decimal digits read back as the number |
| Json.Overwrite | frontend/src/app/page.tsx:57 | the merged object holds both key sets, the later object wins on shared keys, and the other keys of the earlier one are kept |

## Left out

- Network calls: `fetch` and the back-end routes behind it are not modelled. Each response enters as a parameter, `None` or the parsed body. The profile page (`frontend/src/app/page.tsx:42`) and the idea-selection page (`frontend/src/app/select-idea/page.tsx:109`) test the status, so `None` there stands for a request that throws or a status that is not OK. The whiteboard's idea request never tests the status: `None` stands only for a request that throws or a body that does not decode, and a non-OK response whose body decodes enters as `Some(body)`. The hashtag and idea services and `app.py` with its CORS setup are not part of this model.
- Browser storage: `localStorage` reads are parameters (`Stored`: absent, unparsable or parsed). Writes appear as the snapshot a function returns. `JSON.parse`, `JSON.stringify` and the text encoding of stored items are not modelled.
- `router.push`, `alert`, `console` and all rendering are left out, since they do not decide state. This covers the JSX, the colour classes, the palette visibility and the line "formatting" at select-idea/page.tsx:145-159, whose every branch leaves the line unchanged.
- Page geometry: `getBoundingClientRect`, `clientWidth` and `clientHeight` are parameters. `Date.now()` is the `freshId` parameter. Coordinates are `real`, because floating-point rounding is not modelled.
- The `DraggableNote` and `DraggableText` components are not part of this model. They report a release position and an edit, which `DragStop` and `UpdateNote` receive.
- The debugging button at whiteboard/page.tsx:196-273 is not modelled. It repeats the idea request with a fixed body.
- The back end is not part of this model, except for its text helpers. This covers FPDF layout, the column widths, `uuid` file names, OpenAI calls and the Pydantic validation of the request. A story reply is a parameter of `StoryLines`.
- Numbers are integers, and `NaN` appears only as the parsed team size (`TeamSize`, written as `null` by `JSON.stringify`).
- Whitespace is space, tab, line feed, vertical tab, form feed and carriage return. Python's `strip()` also removes the separators U+001C to U+001F, and both `trim()` and `strip()` remove Unicode spaces; in the model none of these are whitespace.
- Object spread of a value that is not an object, such as an array snapshot, is treated as `{}` (`Json.Spread`). JavaScript would copy its index keys.
- TeamForm.EditName, TeamForm.EditSkills: the source assigns `updated[index].name` on a shallow copy, which also mutates the row object shared with the previous state. The model treats the rows as values, so this aliasing is not captured. No later read observes it.
- TeamForm.TeamFormPage.constructor: the initial one-row list of page.tsx:14 is replaced by its mount-effect result of three rows. The state before the first effect is not modelled.
- SelectIdea.PlanRequest: the branch at select-idea/page.tsx:83-85 is unreachable after the check at line 78, so it has no separate case.
- SelectIdea.PdfResult: a non-string `file_url` is stored through `localStorage`'s string conversion. The model keeps the JSON value, and `DownloadUrl` takes the stored string.
- Whiteboard.HashTags: the model states the tag examples through generic lemmas (`TrendTagsOfJoined`, `BlankTagKept`, `DoubleHashDropped`, `TrailingHashDropped`) rather than literal example strings.
- A throwing mount read is modelled as no data. The whiteboard parses the snapshot outside any `try` (`frontend/src/app/whiteboard/page.tsx:55`) and so does the idea-selection page (`frontend/src/app/select-idea/page.tsx:20`), which also reads `parsed.ideas` of a `null` snapshot. The exception escapes the effect and tears the page down; the model instead keeps the initial empty industry, tags and ideas (`StoredIndustry`, `StoredTrends`, `StructureIdeas`).
- Whiteboard.Board.ClickOnNote: React batches state updates. The model composes the two handlers' updates as they read the state from before the click; it does not model React's scheduler.

Where the code and the documented behaviour of the system differ, the model follows the code:

- A click inside a quadrant in delete mode resets both the tool and the pending sticky colour (`Clicked`), instead of doing nothing.
- The download page replaces the first `../` and then the first `./` anywhere in the path, not only at its start (`CleanPath`, `DoublyRelative`).
