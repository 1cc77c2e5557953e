# Resume Maker: store, forms and PDF export

A Dafny model of the logic of the Resume Maker web application. Five parts are modelled:

- **The resume store.** `resumeReducer` is a pure transition function over the resume record: personal information, six entry collections, languages and skills (`ResumeReducer`, over the data model in `ResumeData` and the list operations in `EntryList`).
- **The list logic of two form components.** The skills form adds a trimmed, de-duplicated skill and removes a skill (`SkillsForm`). The languages form adds, edits and removes languages, keeping at least one (`LanguagesForm`).
- **What the direct-text PDF export writes.** This covers the string builders (full name, contact line, date range, degree, language line, download name) and the ordered list of text blocks a record produces (`PdfText`).
- **Where the direct-text PDF export writes it.** The export is a `currentY` cursor that moves down A4 pages and starts a new page when a requested height would cross the bottom margin (`PdfLayout`, class `Layout`). Each method of `Layout` is tied to a pure function over a `Doc` (current page, blocks placed so far, cursor), and the whole export to `Render`. Properties of the page positions are proved about these functions.
- **The two fallback paths of the download.**
  - The image-slicing page loop (`ImageSlicing`).
  - The older plain-text paginator (`TextFallback`).

Modelling choices:

- **Objects.** JavaScript objects built with spread syntax are maps from property names to strings. A missing property reads as `""`, like `x || ''`.
- **Ids and clocks.** An entry's numeric `id` is kept apart from its other properties. Clock values (`Date.now()`, `new Date().toISOString()`) are parameters.
- **Lengths.** All lengths on the page are integers in units of 0.2 mm, so 1 mm is 5 units and a line of `size` points (`size × 0.4` mm) is `2 × size` units. This keeps every length used by the text export exact.
- **Wrapping.** jsPDF's `splitTextToSize` decides how many lines a text wraps to. The text export receives it as a function `lineCount`, and the plain-text fallback receives it as a function `wrap`.
- **Generic helpers.** `Seqs.Filter` models `Array.prototype.filter`. `JsText` models `String.prototype.trim` and `Array.prototype.join`.

Where the code and the documented intent of the project differ, the model follows the code:

- **Ids are not unique.** ADD_* stamps `Date.now()`, and a payload may bring its own id. Two additions in the same millisecond therefore share an id (`EntryList.AddMayDuplicateIds`). Distinct ids are kept only when the stamped id is new (`EntryList.AddKeepsDistinct`, `ResumeReducer.EditsPreserveWellKeyed`).
- **Empty dates print "Present".** The date line of an entry with both dates empty is "Present", not empty text. The end date defaults to "Present" before the separator is stripped.
- **Only one separator is stripped.** `.replace(/^ - | - $/, '')` has no global flag, so only the leftmost match is removed: a leading " - " if there is one, otherwise a trailing one (`PdfText.StripDash`).

## Model

| member | source | states |
|---|---|---|
| ResumeData.WithSection | src/contexts/ResumeContext.js:14-30 | `{ ...state, education: … }`: the named collection is replaced and every other collection, personal information, languages and skills are unchanged |
| ResumeReducer.Reduce | src/contexts/ResumeContext.js:7-131 | UPDATE_PERSONAL_INFO gives every payload key the payload's value, keeps every other property, and keeps the rest of the record. ADD_/UPDATE_/REMOVE_* change only their own collection, by AddEntry/UpdateEntries/RemoveEntries. UPDATE_LANGUAGES and UPDATE_SKILLS replace only their list. LOAD_RESUME returns the payload. An unknown action returns the state |
| ResumeReducer.AddAppendsOne | src/contexts/ResumeContext.js:14-18 | ADD_* grows the collection by exactly one entry at the end with earlier entries unchanged; the new entry has the payload's properties and the payload's id if it has one, else the clock value |
| ResumeReducer.UpdateAbsentIdIsNoop | src/contexts/ResumeContext.js:19-25 | UPDATE_* with an id no entry has returns an equal record |
| ResumeReducer.RemoveTwiceIsRemoveOnce | src/contexts/ResumeContext.js:26-30 | REMOVE_* applied twice with one id equals applying it once |
| ResumeReducer.AddThenRemoveRestores | src/contexts/ResumeContext.js:14-30 | ADD_* with a new id followed by REMOVE_* of that id restores the record |
| ResumeReducer.EditsPreserveWellKeyed | src/contexts/ResumeContext.js:14-30 | UPDATE_* and REMOVE_* keep ids distinct in every collection and in the languages list, and ADD_* does when the stamped id is new |
| ResumeData.InitialResume | src/contexts/ResumeContext.js:134-211 | the scaffold has no skills, empty personal information, and one entry with id 1 and only empty properties in every collection and in the languages list |
| ResumeReducer.InitialWellKeyed | src/contexts/ResumeContext.js:134-211 | the scaffold record has distinct ids in every collection and in the languages list |
| EntryList.Stamp | src/contexts/ResumeContext.js:17 | `{ id: Date.now(), ...payload }` keeps the payload's properties and takes the payload's id over the clock value |
| EntryList.AddEntry | src/contexts/ResumeContext.js:17 | the old collection is a prefix of the result, which has one more entry, the stamped payload |
| EntryList.Merge | src/contexts/ResumeContext.js:23 | `{ ...e, ...patch }`: the patch's properties override, other properties and the id stay |
| EntryList.UpdateEntries | src/contexts/ResumeContext.js:22-24 | same length and ids; every entry with the patch's id (all of them, not just the first) is merged, every other entry is unchanged |
| EntryList.RemoveEntries | src/contexts/ResumeContext.js:29 | an entry is in the result exactly when it is in the collection and has another id |
| EntryList.UpdateAbsentIsNoop | src/contexts/ResumeContext.js:22-24 | an update whose id matches no entry returns an equal collection |
| EntryList.UpdateIdempotent | src/contexts/ResumeContext.js:22-24 | applying the same update twice is applying it once |
| EntryList.RemoveIdempotent | src/contexts/ResumeContext.js:29 | removing an id twice is removing it once |
| EntryList.RemoveKeepsOrder | src/contexts/ResumeContext.js:29 | the result is a subsequence of the collection and keeps every entry with another id with its multiplicity |
| EntryList.RemoveAbsentIsNoop | src/contexts/ResumeContext.js:29 | removing an id no entry has returns an equal collection |
| EntryList.AddThenRemove | src/contexts/ResumeContext.js:17-29 | adding an entry with a new id and removing that id restores the collection |
| EntryList.AddKeepsDistinct | src/contexts/ResumeContext.js:17 | on a collection with distinct ids, adding keeps ids distinct if and only if the stamped id is new |
| EntryList.AddMayDuplicateIds | src/contexts/ResumeContext.js:17 | two additions with the same clock value leave two entries with one id |
| EntryList.EditsKeepDistinct | src/contexts/ResumeContext.js:22-29 | update and removal keep distinct ids distinct |
| EntryList.SubsequenceKeepsDistinct | src/contexts/ResumeContext.js:29 | a subsequence of a collection with distinct ids has distinct ids |
| Seqs.Filter | src/contexts/ResumeContext.js:29 | `filter`: no longer than the input; an element is kept exactly when it is in the input and passes the test |
| Seqs.FilterIsSubsequence | src/contexts/ResumeContext.js:29 | `filter` keeps the input order |
| Seqs.FilterCount | src/contexts/ResumeContext.js:29 | `filter` keeps every passing element with its multiplicity and drops every failing one |
| Seqs.FilterKeepsAll | src/contexts/ResumeContext.js:29 | `filter` returns its input exactly when every element passes |
| Seqs.FilterAppend | src/components/ResumeForm/Skills.js:18 | `filter` distributes over concatenation |
| Seqs.FilterIdempotent | src/components/ResumeForm/Skills.js:18 | filtering twice by one test is filtering once |
| Seqs.FilterDropsAtMostOne | src/components/ResumeForm/Languages.js:29 | when at most one element fails the test, the result is at most one shorter |
| JsText.TrimStart | src/components/ResumeForm/Skills.js:10 | the result is a suffix of the input that does not start with white space, and only white space was dropped |
| JsText.TrimEnd | src/components/ResumeForm/Skills.js:10 | the result is a prefix of the input that does not end with white space, and only white space was dropped |
| JsText.Trim | src/components/ResumeForm/Skills.js:10 | `trim()` is empty exactly when the input is blank, and otherwise starts and ends with a non-space character |
| JsText.BlankConcat | src/hooks/useResume.js:344 | a concatenation is blank exactly when both parts are |
| JsText.BlankSplit | src/hooks/useResume.js:344 | a string is blank exactly when a prefix and the rest are both blank |
| JsText.Join | src/hooks/useResume.js:358 | `join` of no parts is empty; otherwise the result starts with the first part |
| JsText.JoinEndsWithLast | src/hooks/useResume.js:358 | a non-empty `join` ends with the last part |
| JsText.JoinSnoc | src/hooks/useResume.js:358 | `join` puts the separator between neighbours: one more part appends the separator and the part |
| SkillsForm.AddSkill | src/components/ResumeForm/Skills.js:9-15 | blank input or a trimmed value already listed leaves the list unchanged; otherwise the trimmed value is appended |
| SkillsForm.RemoveSkill | src/components/ResumeForm/Skills.js:17-20 | the skill no longer appears and every other skill is listed exactly when it was before |
| SkillsForm.AddedSkillIsTrimmed | src/components/ResumeForm/Skills.js:10-11 | when the list changes it grows by one, and the new skill is non-empty and neither starts nor ends with white space |
| SkillsForm.AddKeepsNoDuplicates | src/components/ResumeForm/Skills.js:10-11 | a list without duplicates has none after `addSkill` |
| SkillsForm.RemoveKeepsOthers | src/components/ResumeForm/Skills.js:17-19 | `removeSkill` keeps the other skills in order with their multiplicities and is idempotent |
| SkillsForm.AddThenRemove | src/components/ResumeForm/Skills.js:11-18 | adding a fresh non-blank skill and removing its trimmed value restores the list |
| LanguagesForm.AddLanguage | src/components/ResumeForm/Languages.js:10-18 | existing entries are kept and one entry is appended with the clock id and empty `language` and `proficiency` |
| LanguagesForm.UpdateLanguage | src/components/ResumeForm/Languages.js:20-25 | same length and ids; entries with the id get the property set, all other entries are unchanged |
| LanguagesForm.RemoveLanguage | src/components/ResumeForm/Languages.js:27-32 | a no-op with at most one entry; otherwise an entry stays exactly when it has another id |
| LanguagesForm.UpdateAbsentIsNoop | src/components/ResumeForm/Languages.js:21-23 | updating an absent id leaves the list unchanged |
| LanguagesForm.RemoveKeepsOthers | src/components/ResumeForm/Languages.js:28-30 | with more than one entry, removal keeps the other entries in order with their multiplicities |
| LanguagesForm.RemoveNeverEmpties | src/components/ResumeForm/Languages.js:28-30 | with distinct ids removal drops at most one entry and never empties a non-empty list |
| LanguagesForm.AddThenRemove | src/components/ResumeForm/Languages.js:10-32 | adding a language with a new id to a non-empty list and removing that id restores the list |
| PdfText.FullName | src/hooks/useResume.js:344 | the trimmed full name is empty exactly when both names are blank |
| PdfText.PartsOf | src/hooks/useResume.js:351-354 | at most one part per listed property; none exactly when no listed property is filled in |
| PdfText.PartsOfFilled | src/hooks/useResume.js:351-354 | the parts are exactly the filled-in properties in list order (`Filter` over the list), each its label followed by its value |
| PdfText.ContactParts | src/hooks/useResume.js:350-354 | at most four parts; none exactly when email, phone, address and LinkedIn are all empty; the first is "Email: {email}" when there is an email |
| PdfText.ContactLine | src/hooks/useResume.js:358 | the line is empty when there are no parts and otherwise starts with the first part |
| PdfText.ContactWrittenIff | src/hooks/useResume.js:351-365 | the contact line and its rule are written together exactly when email, phone, address or LinkedIn is filled in; with an email the line starts "Email: …" |
| PdfText.EndOrPresent | src/hooks/useResume.js:387 | `end \|\| 'Present'` is never empty |
| PdfText.StripDash | src/hooks/useResume.js:387 | `replace(/^ - \| - $/, '')` removes nothing or exactly three characters |
| PdfText.StripDashOneMatch | src/hooks/useResume.js:387 | only the leftmost match goes: a leading " - " when there is one (a trailing one then stays), otherwise a trailing one, otherwise nothing |
| PdfText.DateRange | src/hooks/useResume.js:387 | never empty; an empty start gives the end date or "Present"; otherwise (start not starting and end not ending with a space) "{start} - {end or Present}" |
| PdfText.DateRangeExamples | src/hooks/useResume.js:387 | "2020-01" to nothing reads "2020-01 - Present", two empty dates read "Present", "2019" to "2021" reads "2019 - 2021" |
| PdfText.DegreeText | src/hooks/useResume.js:385 | the degree line is empty exactly when the degree is blank and there is no field of study |
| PdfText.LanguageLine | src/hooks/useResume.js:503 | the line starts with the language and adds " - {proficiency}" exactly when there is a proficiency |
| PdfText.DatePart | src/hooks/useResume.js:785 | `split('T')[0]`: the longest prefix of the ISO time stamp without a 'T' |
| PdfText.FileName | src/hooks/useResume.js:783-786 | the name starts with the first name or "Resume", then "_{lastName}" exactly when there is a last name, then "_Resume_{date}.pdf" |
| PdfText.Kept | src/hooks/useResume.js:377 | an entry is written exactly when it is in the collection and its primary property is not blank |
| PdfText.Subtitle | src/hooks/useResume.js:385-529 | the italic line under a title: none for achievements and languages; the position for work experience and internships; for projects and certificates, present exactly when the technologies or the issuer is filled in; for education, present exactly when the degree is not blank or there is a field of study |
| PdfText.DateLine | src/hooks/useResume.js:387-549 | none for languages; the date of certificates and achievements; for the dated sections never empty, and the end date or "Present" when there is no start date |
| PdfText.Details | src/hooks/useResume.js:396-556 | a description line, when there is one, is the entry's description and never belongs to a certificate or a language |
| PdfText.EntryBlocks | src/hooks/useResume.js:383-399 | an entry's blocks are non-empty and, outside languages, start with its primary property in 12-point bold; every later block is text below 12 points |
| PdfText.EntriesBlocks | src/hooks/useResume.js:382-400 | at least one block per kept entry, starting with the first entry's first block |
| PdfText.SectionBlocks | src/hooks/useResume.js:376-402 | nothing exactly when no entry is kept; otherwise the 14-point bold heading followed by more blocks than kept entries |
| PdfText.HeaderBlocks | src/hooks/useResume.js:343-348 | nothing exactly when both names are blank; otherwise the full name in 20-point bold |
| PdfText.ContactBlocks | src/hooks/useResume.js:350-365 | nothing exactly when there are no contact parts, that is when email, phone, address and LinkedIn are all empty; otherwise the joined line in 10 points and the rule |
| PdfText.SummaryBlocks | src/hooks/useResume.js:367-374 | nothing exactly when the summary is empty; otherwise the 14-point bold heading and the summary in 11 points |
| PdfText.SkillsBlocks | src/hooks/useResume.js:488-496 | nothing exactly when there is no skill; otherwise the SKILLS heading and one line that starts with the first skill |
| PdfText.ContentLength | src/hooks/useResume.js:343-561 | the content is as long as its eleven parts together |
| PdfText.Content | src/hooks/useResume.js:343-561 | the export writes nothing exactly when the names are blank, no contact property, summary or skill is filled in and no entry of any list section is kept |
| PdfText.SectionWrittenIff | src/hooks/useResume.js:377-380 | a section is written exactly when some entry's primary property is not blank, and then starts with its heading |
| PdfText.ContentIgnoresIds | src/hooks/useResume.js:343-561 | two records that differ only in entry ids produce the same content |
| PdfText.SectionIgnoresIds | src/hooks/useResume.js:377-402 | a section's blocks do not depend on entry ids |
| PdfText.KeptIgnoresIds | src/hooks/useResume.js:377 | the kept entries of two collections that agree except on ids agree except on ids |
| PdfText.EntriesIgnoreIds | src/hooks/useResume.js:383-400 | the blocks of two entry runs that agree except on ids are equal |
| PdfLayout.CheckY | src/hooks/useResume.js:334-341 | the cursor stays when the height still fits and goes to the top margin otherwise; a height no taller than the content area then fits above the bottom margin |
| PdfLayout.InOrderAll | src/hooks/useResume.js:320-341 | blocks ordered neighbour by neighbour are ordered pairwise: nothing is written above or over an earlier block |
| PdfLayout.Put | src/hooks/useResume.js:320-326 | `addText` or `addLine`: the block goes on the current page at the cursor, nothing placed before changes, and the cursor moves down by the block's height |
| PdfLayout.Advance | src/hooks/useResume.js:346 | `currentY +=` moves only the cursor, by exactly the given length |
| PdfLayout.Checked | src/hooks/useResume.js:334-341 | `checkNewPage`: a new page with the cursor at the top margin exactly when the height would cross the bottom margin, otherwise nothing changes; afterwards a height of at most one content area fits |
| PdfLayout.PutAll | src/hooks/useResume.js:383-399 | consecutive `addText` calls with no check between them append one block each and stay on the current page |
| PdfLayout.PutAllAppend | src/hooks/useResume.js:383-399 | placing two runs of blocks one after the other is placing their concatenation |
| PdfLayout.HeaderDoc | src/hooks/useResume.js:343-348 | the header stays on the current page and only appends its blocks |
| PdfLayout.LineRuleDoc | src/hooks/useResume.js:356-365 | the contact line and the rule stay on the current page and the rule is 10 mm under the end of the line |
| PdfLayout.ContactDoc | src/hooks/useResume.js:350-365 | the contact part stays on the current page and only appends its blocks |
| PdfLayout.HeadedDoc | src/hooks/useResume.js:367-374 | the summary or skills heading starts where the checked height fits above the bottom margin, on a new page exactly when it did not fit at the cursor |
| PdfLayout.SummaryDoc | src/hooks/useResume.js:367-374 | the summary only appends its blocks and never returns to an earlier page; its heading starts at least 20 mm above the bottom margin |
| PdfLayout.SkillsDoc | src/hooks/useResume.js:488-496 | the skills only append their blocks and never return to an earlier page; the heading starts at least 15 mm above the bottom margin |
| PdfLayout.EntryDoc | src/hooks/useResume.js:382-399 | an entry's first block starts where the entry's checked height (15 mm, 10 mm for languages) fits above the bottom margin; the export only appends and never returns to an earlier page |
| PdfLayout.EntriesDoc | src/hooks/useResume.js:382-400 | the `forEach` appends one block per entry block and never returns to an earlier page |
| PdfLayout.SectionDoc | src/hooks/useResume.js:376-402 | a written section's heading starts where its checked height (20 mm, 15 mm for languages) fits above the bottom margin; the section appends exactly its blocks |
| PdfLayout.EntryPlacement | src/hooks/useResume.js:383-399 | an entry's title and its optional lines, placed as one run, are placed one under the other |
| PdfLayout.TopDoc | src/hooks/useResume.js:311-374 | the header, contact and summary blocks from the first page's top margin; a name is placed at the top margin of the first page |
| PdfLayout.ListsDoc | src/hooks/useResume.js:376-486 | education, work experience, internships and projects, in that order, only append their blocks and never return to an earlier page |
| PdfLayout.TailDoc | src/hooks/useResume.js:488-561 | skills, languages, certificates and achievements, in that order, only append their blocks; the languages section stays in place in the result |
| PdfLayout.Render | src/hooks/useResume.js:307-561 | the whole document `generatePDFFromData` builds for a record; the languages section placed after the skills stays in place in it |
| PdfLayout.RenderLength | src/hooks/useResume.js:307-561 | the document places as many blocks as its eleven parts produce |
| PdfLayout.TailLength | src/hooks/useResume.js:488-561 | the last four parts add their blocks to those of the first seven |
| PdfLayout.RenderPlacesContent | src/hooks/useResume.js:307-561 | the document places exactly one block for each block of the record's content |
| PdfLayout.Room | src/hooks/useResume.js:334-341 | a height is checked exactly before 12- and 14-point bold text (entry titles and headings), never more than 20 mm |
| PdfLayout.Fits | src/hooks/useResume.js:334-341 | in a fitting document every 12- or 14-point bold block starts at least 15 mm above the bottom margin |
| PdfLayout.EntryFits | src/hooks/useResume.js:382-399 | an entry title is placed with 15 mm free above the bottom margin and the entry's other lines need no room |
| PdfLayout.EntriesFit | src/hooks/useResume.js:382-400 | every entry title of a run keeps that room |
| PdfLayout.LanguagesFit | src/hooks/useResume.js:505-510 | every language line starts at least 10 mm above the bottom margin |
| PdfLayout.LanguagesSectionFits | src/hooks/useResume.js:498-511 | after the LANGUAGES heading, every line of the section starts at least 10 mm above the bottom margin |
| PdfLayout.RenderLanguagesFit | src/hooks/useResume.js:505-510 | in the whole document, every language line starts at least 10 mm above the bottom margin |
| PdfLayout.SectionFits | src/hooks/useResume.js:376-402 | a section's heading and entry titles all keep their room |
| PdfLayout.HeadedFits | src/hooks/useResume.js:367-374 | the summary and skills headings keep their room |
| PdfLayout.RenderFits | src/hooks/useResume.js:343-561 | in the whole document every section heading starts at least 20 mm (SKILLS and LANGUAGES 15 mm) and every entry title at least 15 mm above the bottom margin |
| PdfLayout.EntriesDocIgnoresIds | src/hooks/useResume.js:382-400 | two entry runs that agree except on ids are placed identically |
| PdfLayout.SectionDocIgnoresIds | src/hooks/useResume.js:376-402 | a section is placed identically whatever its entries' ids |
| PdfLayout.RenderIgnoresIds | src/hooks/useResume.js:307-561 | two records that differ only in entry ids give the same page count and every block in the same place |
| PdfLayout.Layout.constructor | src/hooks/useResume.js:311-317 | one page, nothing written, cursor at the top margin |
| PdfLayout.Layout.AddText | src/hooks/useResume.js:320-326 | the text is placed at the cursor on the last page and the cursor moves down by lines × size × 0.4 mm (`Put`) |
| PdfLayout.Layout.AddLine | src/hooks/useResume.js:329-331 | a rule is placed at the cursor; nothing else changes |
| PdfLayout.Layout.Skip | src/hooks/useResume.js:346 | `currentY += d` moves only the cursor |
| PdfLayout.Layout.CheckNewPage | src/hooks/useResume.js:334-341 | exactly when `y + h` passes the bottom margin one page is added, the cursor is reset to the margin and the result is true; otherwise nothing changes and it is false |
| PdfLayout.Layout.AddOptional | src/hooks/useResume.js:389-397 | the text is placed at the cursor, and the cursor moves past it, exactly when it is not empty |
| PdfLayout.Layout.Header | src/hooks/useResume.js:343-348 | the new state is `HeaderDoc` of the old one: the name at the cursor, then 5 mm |
| PdfLayout.Layout.Contact | src/hooks/useResume.js:350-365 | the new state is `ContactDoc` of the old one |
| PdfLayout.Layout.LineAndRule | src/hooks/useResume.js:356-365 | the line at the cursor, 10 mm, the rule, 10 mm (`LineRuleDoc`) |
| PdfLayout.Layout.Summary | src/hooks/useResume.js:367-374 | the new state is `SummaryDoc` of the old one: a 20 mm break check, the heading, 5 mm, the summary, 10 mm |
| PdfLayout.Layout.Skills | src/hooks/useResume.js:488-496 | the new state is `SkillsDoc` of the old one: a 15 mm break check, the heading, 5 mm, the joined skills, 10 mm |
| PdfLayout.Layout.EntryText | src/hooks/useResume.js:383-399 | the entry's blocks are placed one under the other from the cursor, with no break between them |
| PdfLayout.Layout.OneEntry | src/hooks/useResume.js:383-399 | one turn of the `forEach`: the break check, the entry, the gap (`EntryDoc`) |
| PdfLayout.Layout.SubLines | src/hooks/useResume.js:385-399 | the subtitle, date and description lines, each only when it is not empty, placed one under the other |
| PdfLayout.Layout.Entries | src/hooks/useResume.js:382-400 | the new state is `EntriesDoc` of the old one and the blocks of every kept entry are written in order |
| PdfLayout.Layout.Section | src/hooks/useResume.js:376-402 | the new state is `SectionDoc` of the old one and exactly the section's blocks are written |
| PdfLayout.Layout.Lists | src/hooks/useResume.js:376-486 | the new state is `ListsDoc` of the old one and exactly the four sections' blocks are written |
| PdfLayout.Layout.Tail | src/hooks/useResume.js:488-561 | the new state is `TailDoc` of the old one and exactly the four sections' blocks are written |
| PdfLayout.GeneratePdfFromData | src/hooks/useResume.js:307-568 | the document is `Render` of the record: it writes exactly the record's content in source order, every block comes after every earlier one in reading order, every heading and entry title starts clear of the bottom margin by its checked height, and every language line starts at least 10 mm above it |
| ImageSlicing.SliceAsWritten | src/hooks/useResume.js:766-779 | the loop produces 1 + ⌊imgHeight / contentHeight⌋ pages with the image at margin + k × contentHeight on page k (the same loop is at src/hooks/useResume_backup.js:657-670) |
| ImageSlicing.AsWrittenPages | src/hooks/useResume.js:774 | one page more than the number of whole content areas in the image |
| ImageSlicing.AsWrittenPosition | src/hooks/useResume.js:775 | the image never starts above the top margin, so from the second page on no row of it is in the content area |
| ImageSlicing.AsWrittenLosesRows | src/hooks/useResume.js:775 | rows of the image below the first content area lie in the content area of no page |
| ImageSlicing.AsWrittenExtraPage | src/hooks/useResume.js:774 | an image exactly m content areas tall gets m + 1 pages where m suffice; drawn at the corrected position, that extra page would hold no row in its content area |
| ImageSlicing.CorrectedPages | src/hooks/useResume.js:774 | at least one page, and for a non-empty image the fewest content areas that cover it |
| ImageSlicing.CorrectedPagesUnique | src/hooks/useResume.js:774 | the corrected page count is the only count that covers the image while one fewer does not |
| ImageSlicing.CorrectedPosition | src/hooks/useResume.js:775 | row k × contentHeight lies at the top of page k's content area, and row (k + 1) × contentHeight is already outside it |
| ImageSlicing.SliceCorrected | src/hooks/useResume.js:766-779 | the loop with `heightLeft > 0` and the image moved up per page produces the corrected page count and positions |
| ImageSlicing.CorrectedShowsEachRowOnce | src/hooks/useResume.js:775 | every row of the image lies in the content area of exactly one page of the corrected loop (jsPDF does not clip, so rows near a band's edge also show in a neighbouring page's margin) |
| ImageSlicing.CorrectedHasNoBlankPage | src/hooks/useResume.js:774 | the content area of every page of the corrected loop holds some row of the image |
| TextFallback.FallbackText | src/hooks/useResume_backup.js:564 | never empty, and the element's text whenever it has any |
| TextFallback.Next | src/hooks/useResume_backup.js:569-574 | the next line is drawn after this one, and between the margins when this one is below the top margin |
| TextFallback.SlotOf | src/hooks/useResume_backup.js:567-575 | every line is drawn between the margins; the first at margin + 10 mm on the first page |
| TextFallback.SlotStep | src/hooks/useResume_backup.js:568-575 | each line's place is the previous one moved 6 mm down, or the top margin of a new page once the bottom margin is passed |
| TextFallback.SlotsInOrder | src/hooks/useResume_backup.js:568-575 | lines are drawn in input order and no two share a place |
| TextFallback.PagesFor | src/hooks/useResume_backup.js:569-572 | at least one page, and exactly the pages up to the last line's |
| TextFallback.PaginateLines | src/hooks/useResume_backup.js:566-575 | every wrapped line is drawn once, in order, at its place, on a document of PagesFor pages |
| TextFallback.ExportText | src/hooks/useResume_backup.js:562-581 | draws every wrapped line of the fallback text at its slot, on an existing page, and names the file by the same rule as the main export |

## Findings

| source | as written | input that shows it | evidently intended | confidence | as-written member | corrected member |
|---|---|---|---|---|---|---|
| src/hooks/useResume.js:775 (also src/hooks/useResume_backup.js:666) | `position = margin - (heightLeft - imgHeight)` places the image at margin + k × contentHeight on page k, moving it down the page | an image two content areas tall (534 mm): its row at 267 mm is in the content area of no page | `position = margin + (heightLeft - imgHeight)`, i.e. margin − k × contentHeight, so the k-th band lies in page k's content area | high; not executed | ImageSlicing.AsWrittenLosesRows | ImageSlicing.CorrectedShowsEachRowOnce |
| src/hooks/useResume.js:774 (also src/hooks/useResume_backup.js:665) | `while (heightLeft >= 0)` adds a page when the image ends exactly at a page boundary | an image exactly one content area tall (267 mm) gets 2 pages | `while (heightLeft > 0)` | medium; not executed | ImageSlicing.AsWrittenExtraPage | ImageSlicing.CorrectedHasNoBlankPage |

## Left out

- Rendering, DOM work, html2canvas capture, element cloning, overlays, timers, user-agent branches and the download itself are browser I/O. The model starts from the captured image height or the element's text.
- Persistence (local storage, JSON import and export) is I/O and is not modelled. The `useLocalStorage` hook is not part of this model.
- The date stamps the older export prints in the corners of the page (`toLocaleDateString`) are locale-dependent formatting and are not modelled.
- jsPDF drawing calls are represented only by the blocks they write and where they write them. Fonts and the horizontal position are not modelled.
- `splitTextToSize` is not modelled. It is the `lineCount` parameter (of type `PdfLayout.LineCount`) of `PdfLayout.Layout` and `PdfLayout.Render` and the `wrap` parameter of `TextFallback.ExportText`.
- The image height is any non-negative integer length. The float scaling from canvas pixels to millimetres is not modelled.
- PdfLayout.Layout.AddText: fuses `addText(…, currentY, …)` with the assignment `currentY = …` that follows every call. The source's `addText` only computes the new position.
- PdfLayout.Layout: represents the page count, not the pages themselves. jsPDF always writes on the last page, which the model records in each block.
- ImageSlicing.SliceAsWritten: returns the image positions and does not draw the image. Which rows are visible is stated separately by `ShownAt`.
- PdfText.Kept: the export filters each section on its primary property. The preview's visibility tests look only at the first entry and are presentation, so they are not modelled.
- ResumeReducer.Reduce: the remove guards of the project, internship, certificate and achievement forms (`length > 1`) are not modelled. They only decide whether REMOVE_* is dispatched.
- ResumeReducer.Reduce: the record's fields are always present. An `undefined` skills list or collection, which `state.skills &&` guards against, is not modelled.
