# cv-genius core, modelled in Dafny

cv-genius turns a résumé into a structured CV record and back into a
generated PDF. This project models the deterministic parts of that
pipeline and proves properties about them:

- **The two Python résumé extractors** (`ImprovedParser` with
  `ImprovedPatterns`, and `BaselineParser`). They turn the text of a PDF
  into a CV record: personal information, experiences, education, skills
  and languages. Each extractor is a line scanner with section flags,
  look-ahead windows, first-match-wins priorities, fixed defaults and
  (in the improved one) skill de-duplication.
- **The TypeScript regular-expression parser** (`RegexParser`). It cuts the
  text into sections at the first heading of each kind, sorts them by
  position, and builds entries from each section.
- **The front-end state logic**:
  - the generation modal's reducer (`GenerationReducer`);
  - the CV form's list editors and the merge of parsed data (`CvForm`);
  - the normaliser of the AI's answer and its JSON fallback (`GeminiFix`);
  - the upload validation and state (`FileUpload`);
  - the modal service's validation, streamed text and cleanup handle
    (`ModalService`).
- **The PDF generator's text layout** (`PdfLayout`, `SkillGroups`,
  `PdfDocument`): line wrapping, bullet points, grouping skills by
  category, the storage path of the file, and the sequence of texts the
  page receives.
- **Validators and mappers**:
  - `cn`, `isValidEmail`, `cleanText` and `validatePassword` (`Utils`);
  - request validation and the error-to-status table (`ApiRoutes`);
  - the multipart PDF extractor of the Python endpoint (`Multipart`).

Shared pieces live in `wrappers.dfy` (`Option`, `Result`), `cv_types.dfy`
(the CV record and its parts, all fields optional as in the TypeScript
types) and `text.dfy` / `search.dfy` (strings, lines, splitting, joining,
stripping and searching).

How the model is built:

- Every regular expression is either a hand-written recogniser, for the
  cheap ones (years, date ranges, headers, the language patterns), or a
  parameter of the function that uses it, for the email, phone, URL and
  location patterns. The order in which alternatives are tried is kept.
- Loops in the source are methods with loop invariants, proved equal to a
  recursive specification function. The properties are stated and proved
  about that function.
- State the source mutates is a class with `modifies` clauses: the CV
  form, the upload hook, the stream, the service's cleanup handle and the
  PDF page.

## Model

| member | source | states |
|---|---|---|
| ImprovedParser.ExtractPersonalInfo | scripts/pdf_parser_improved.py:62-133 | The result is `PersonalInfoOf(text)`, which `ParseCv` stores. The name is the stripped first line exactly when it is non-empty and has neither '@' nor '+'. The email is the first email match. The phone is the match of the first phone pattern that matches. LinkedIn is set exactly when the pattern matches, and is then the normalised match. The website is the GitHub match with `https://` added, and the deployed-site match only when GitHub does not match. The location is the stripped group of the first location pattern that matches. |
| ImprovedParser.NormalizeLinkedIn | scripts/pdf_parser_improved.py:93-99 | A match is kept exactly when it starts with "http". Any other match gets exactly `https://linkedin.com/` in front when it starts with `in/`, and exactly `https://www.` otherwise. The match is always a suffix of the result. |
| ImprovedParser.LinkedInWwwDoubled | scripts/pdf_parser_improved.py:39 | The pattern accepts an unschemed match starting with `www.`, and the normalisation then puts `https://www.` in front of it, so the result starts with `https://www.www.`. |
| ImprovedParser.WithHttps | scripts/pdf_parser_improved.py:104-110 | A GitHub match without a scheme gets `https://`; one with a scheme is kept. |
| ImprovedParser.CollectNextLines | scripts/pdf_parser_improved.py:171-174 | The look-ahead is the stripped non-blank lines among raw lines i+1 .. i+7. |
| ImprovedParser.FindFirstYear | scripts/pdf_parser_improved.py:182-187 | The loop returns the year of the first look-ahead line holding `\b20dd\b`. |
| ImprovedParser.FirstYearFrom | scripts/pdf_parser_improved.py:183-185 | A found year is four characters, "20" followed by two digits. |
| ImprovedParser.NoYearFrom | scripts/pdf_parser_improved.py:182-187 | The first search finds nothing exactly when no look-ahead line holds a year. |
| ImprovedParser.FallbackYear | scripts/pdf_parser_improved.py:190-202 | The loop computes the 'projet' fallback search. |
| ImprovedParser.FallbackFindsNothingNew | scripts/pdf_parser_improved.py:182-202 | When the first search finds no year, the fallback finds none either: it only rescans suffixes of the same lines. |
| ImprovedParser.CompanyFrom | scripts/pdf_parser_improved.py:206-215 | The location never holds a '-'. A non-empty result comes from a look-ahead line that mentions 'projet' or holds a '-'. |
| ImprovedParser.ExtractCompany | scripts/pdf_parser_improved.py:204-215 | The loop takes company and location from the first such line, split at every '-' (pieces 0 and 1). |
| ImprovedParser.CollectExpDescription | scripts/pdf_parser_improved.py:217-226 | The description lines of lines i+2 .. i+9 are collected: blank and all-capitals lines are skipped, a FORMATION/COMPÉTENCES/CERTIFICATS line stops, and only lines starting with one of the four labels are kept. |
| ImprovedParser.CollectDescFrom | scripts/pdf_parser_improved.py:220-226 | The inner loop over lines j .. hi-1 equals the recursive description function for the same line test. The experience and education loops (lines 302-307) share it. |
| ImprovedParser.MakeExperience | scripts/pdf_parser_improved.py:228-237 | The id carries the index. The company is never empty: it defaults to "Projet personnel". The end date is '' and the position is never current. |
| ImprovedParser.ExtractExperiences | scripts/pdf_parser_improved.py:135-243 | The scan with both section flags equals `Experiences(text)`. |
| ImprovedParser.ExperienceEntriesOk | scripts/pdf_parser_improved.py:150-239 | Every experience entry k has an "exp" id with ordinal k. Its position is a candidate line (longer than 5, not all digits, no sub-label, not a header). Its start date is a 20dd year, its end date '', it is not current, and it has a non-empty company. |
| ImprovedParser.ExpScanOk | scripts/pdf_parser_improved.py:144-239 | The scan only appends to what it is given, and keeps every entry well formed. |
| ImprovedParser.NoHeaderNoExperience | scripts/pdf_parser_improved.py:150-164 | Without an EXPÉRIENCE(S) or PROJETS PERSONNELS header, no experience is produced. |
| ImprovedParser.ExpScanClosed | scripts/pdf_parser_improved.py:163-164 | With both flags off and no opening header ahead, the scan adds nothing. |
| ImprovedParser.FindInstitution | scripts/pdf_parser_improved.py:284-298 | The institution and degree come from lines i+1 .. i+5 (the window is cut at the end of the text). |
| ImprovedParser.FindInstitutionFrom | scripts/pdf_parser_improved.py:284-298 | The loop equals the search from the first naming line of the window. |
| ImprovedParser.InstitutionFirst | scripts/pdf_parser_improved.py:289-298 | The institution comes from the first window line that names INSA, université, école or institut. |
| ImprovedParser.InstitutionNone | scripts/pdf_parser_improved.py:279-298 | With no naming line, institution and degree stay empty. |
| ImprovedParser.CollectEduDescription | scripts/pdf_parser_improved.py:301-307 | The description lines are lines i+2 .. i+7 without blank or capitals lines, stopping at PROJETS/COMPÉTENCES/EXPÉRIENCES. |
| ImprovedParser.DescFrom | scripts/pdf_parser_improved.py:302-307 | The description only grows, by at most one line per line scanned. |
| ImprovedParser.MakeEducation | scripts/pdf_parser_improved.py:309-317 | The defaults are "Formation en cours" and "INSA Toulouse", and the field is always "Informatique". The end date is '' exactly when the end token is 'présent', and is otherwise the digits. The description joins at most the first three parts. |
| ImprovedParser.ExtractEducation | scripts/pdf_parser_improved.py:245-323 | The scan with the FORMATION flag and its early stop equals `EducationOf(text)`. |
| ImprovedParser.EducationEntriesOk | scripts/pdf_parser_improved.py:271-317 | Every education entry has an "edu" id with its index, the fixed field, non-empty degree and institution, a four-digit start, and an end that is '' or four digits. |
| ImprovedParser.EduScanOk | scripts/pdf_parser_improved.py:253-319 | The scan only appends, and keeps every entry well formed. |
| ImprovedParser.NoFormationNoEducation | scripts/pdf_parser_improved.py:259-268 | Without a line that is exactly FORMATION, there is no education entry. |
| ImprovedParser.EduScanClosed | scripts/pdf_parser_improved.py:267-268 | Outside the section, with no FORMATION line ahead, the scan adds nothing. |
| ImprovedParser.LevelOf | scripts/pdf_parser_improved.py:358-374 | Level priority: the text in parentheses first. Then 'native' only when group 2 says natale or native. Then courant gives B2 (only when the line has 'b2'), C2 or C1. B1 otherwise. |
| ImprovedParser.LangLineFrom | scripts/pdf_parser_improved.py:355-380 | Each pattern adds at most one entry per line. |
| ImprovedParser.MatchLanguages | scripts/pdf_parser_improved.py:355-380 | The loop over the patterns equals the recursive function. |
| ImprovedParser.ScanLanguages | scripts/pdf_parser_improved.py:334-380 | The line loop with the section flag and its stop equals the recursive scan. |
| ImprovedParser.ExtractLanguages | scripts/pdf_parser_improved.py:325-384 | `extract_languages` equals `LanguagesOf(text)`. |
| ImprovedParser.LangPatternNames | scripts/pdf_parser_improved.py:348-353 | The four patterns name Français, Anglais, Vietnamien and Espagnol. |
| ImprovedParser.LanguageEntriesOk | scripts/pdf_parser_improved.py:376-380 | Every language is one of those four, with a "lang" id built from its name and its index, and a level. |
| ImprovedParser.LangLineOk | scripts/pdf_parser_improved.py:376-380 | Matching one line keeps every entry well formed. |
| ImprovedParser.LangScanOk | scripts/pdf_parser_improved.py:334-380 | The scan keeps every entry well formed. |
| ImprovedParser.NoHeaderNoLanguage | scripts/pdf_parser_improved.py:338-346 | Without a languages header, no language is produced. |
| ImprovedParser.LangScanClosed | scripts/pdf_parser_improved.py:346 | Outside the section, with no header ahead, the scan adds nothing. |
| ImprovedParser.AddSkillWords | scripts/pdf_parser_improved.py:417-426 | The words of a line only ever add skills. |
| ImprovedParser.AddLineSkills | scripts/pdf_parser_improved.py:416-426 | The word loop with the duplicate check equals the recursive function. |
| ImprovedParser.ExtractSkills | scripts/pdf_parser_improved.py:386-429 | `extract_skills` equals `SkillsOf(text)`. |
| ImprovedParser.SkillsDistinctFromVocabulary | scripts/pdf_parser_improved.py:395-426 | Every skill is a vocabulary word, title-cased, 'technical' and 'intermediate', with an id carrying its index. No name occurs twice. |
| ImprovedParser.AddSkillWordsOk | scripts/pdf_parser_improved.py:417-426 | Adding the words of one line keeps the skills well formed and free of repeats. |
| ImprovedParser.SkillScanOk | scripts/pdf_parser_improved.py:403-426 | The line scan keeps the skills well formed and free of repeats. |
| ImprovedParser.EmptyCvData | scripts/pdf_parser_improved.py:453-461 | The empty record: no personal field and four empty lists. |
| ImprovedParser.ParseCv | scripts/pdf_parser_improved.py:431-451 | An empty text gives exactly the empty record. Otherwise the personal information is the whole result of `extract_personal_info` and every list is its extractor's result on the text. |
| ImprovedPatterns.FindYearLeftmost | scripts/pdf_parser_improved.py:183 | The year search returns the leftmost `\b(20\d{2})\b`, and nothing only when there is none. |
| ImprovedPatterns.FindYear | scripts/pdf_parser_improved.py:183-185 | A found year is a four-character year of this century. |
| ImprovedPatterns.FindDateRangeLeftmost | scripts/pdf_parser_improved.py:273 | The date-range search returns the leftmost match of `(\d{4})\s*-\s*(\d{4}\|présent)`. |
| ImprovedPatterns.FindDateRangeNone | scripts/pdf_parser_improved.py:271-274 | No match from a position on means no position from there on matches. |
| ImprovedPatterns.FindDateRange | scripts/pdf_parser_improved.py:273-276 | A match's groups are four digits and either four digits or 'présent'. |
| ImprovedPatterns.FindLangLeftmost | scripts/pdf_parser_improved.py:356 | The language search returns the match at the leftmost position where the pattern matches. |
| ImprovedPatterns.FindLangNone | scripts/pdf_parser_improved.py:356 | No match from a position on means no match at any later position. |
| ImprovedPatterns.LangMatchAt | scripts/pdf_parser_improved.py:349-353 | A match has a non-empty group 2. A parenthesised group exists only for a pattern that has one, and is non-empty with no ')'. |
| ImprovedPatterns.SpaceRunSpaces | scripts/pdf_parser_improved.py:349 | The `\s*` run the matcher skips is all whitespace. |
| ImprovedPatterns.TitleLowerKeyword | scripts/pdf_parser_improved.py:395-401 | Lower-casing a title-cased vocabulary word gives the word back, which is why the duplicate check compares lower-cased names. |
| BaselineParser.CleanTextShape | scripts/pdf_parser.py:82-88 | The cleaned text has no newline and no whitespace other than single spaces, never two in a row. It has none of the bullet glyphs, and no whitespace at either end. |
| BaselineParser.ReplaceChars | scripts/pdf_parser.py:86 | Each character of the set is replaced, and every other character is kept in place. |
| BaselineParser.ReplaceKeepsSpacing | scripts/pdf_parser.py:85-86 | Replacing the bullets by '-' keeps single spacing and removes them. |
| BaselineParser.ReplaceAbsent | scripts/pdf_parser.py:87 | Replacing a character that no longer occurs changes nothing, so the newline replace is a no-op. |
| BaselineParser.StripTidy | scripts/pdf_parser.py:88 | Stripping keeps the cleaned shape. |
| BaselineParser.CleanTextOneLine | scripts/pdf_parser.py:413 | The cleaned text is a single line, so every line-based extractor sees one line. |
| BaselineParser.CleanTextStripped | scripts/pdf_parser.py:88 | Stripping the cleaned text changes nothing. |
| BaselineParser.SectionEmpty | scripts/pdf_parser.py:284-317 | `_find_section` returns "" exactly when no non-blank line matches a keyword of the kind. |
| BaselineParser.SectionAtFirstHeader | scripts/pdf_parser.py:292-315 | Otherwise the section is the first matching line, stripped, then "\n", then the later non-blank lines up to the first section title. |
| BaselineParser.BodyLinesOk | scripts/pdf_parser.py:304-313 | No collected line is blank or a section title. |
| BaselineParser.CollectBody | scripts/pdf_parser.py:304-313 | The inner loop equals the recursive body function. |
| BaselineParser.FindSectionWith | scripts/pdf_parser.py:284-317 | The outer loop equals the first-header section. |
| BaselineParser.FindSection | scripts/pdf_parser.py:284-317 | The method equals the section of the kind's keywords under the fixed titles. |
| BaselineParser.SectionOfCleaned | scripts/pdf_parser.py:413-421 | On cleaned text every section is "" or the whole text plus "\n". |
| BaselineParser.SectionOfOneLine | scripts/pdf_parser.py:288-317 | On a stripped single line, the section is "" or that line plus "\n". |
| BaselineParser.NameFirst | scripts/pdf_parser.py:124-133 | The name is the first qualifying line, and there is none exactly when no line qualifies: 2 < length < 50, no email or phone match, no digit, at least one space. |
| BaselineParser.FirstLines | scripts/pdf_parser.py:124-125 | At most five lines are examined. |
| BaselineParser.SiteFirst | scripts/pdf_parser.py:116-121 | The website is the first match not naming linkedin or github, and none exactly when every match names one. |
| BaselineParser.PersonalInfoOf | scripts/pdf_parser.py:90-135 | The email and LinkedIn are the first matches. The phone is the stripped match of the first family that matches. No location is ever set. |
| BaselineParser.PersonalInfoChoices | scripts/pdf_parser.py:116-133 | The name and website are the first qualifying candidates among the first five lines and the website matches. |
| BaselineParser.ExtractPersonalInfo | scripts/pdf_parser.py:90-135 | The loops equal `PersonalInfoOf`. |
| BaselineParser.NameOfCleaned | scripts/pdf_parser.py:124-133 | On cleaned text the name, if any, is the whole text. |
| BaselineParser.NameOfOneLine | scripts/pdf_parser.py:124-133 | On a stripped single line, the name, if any, is that line. |
| BaselineParser.NonBlankOne | scripts/pdf_parser.py:124 | A stripped line survives the non-blank filter unless it is empty. |
| BaselineParser.BlockOf | scripts/pdf_parser.py:152-159 | A block is the text from 200 characters before the match to 200 after, clamped to the section, with the match's groups and start. |
| BaselineParser.BlocksCount | scripts/pdf_parser.py:148-159 | There is one block per match of each pattern. |
| BaselineParser.CollectBlocks | scripts/pdf_parser.py:148-159 | The double loop lists the blocks pattern by pattern, in match order. |
| BaselineParser.EndDateCases | scripts/pdf_parser.py:386-400 | A current position has end date "". Otherwise the end date is dates[1], or "" with fewer than two dates. |
| BaselineParser.PositionFirst | scripts/pdf_parser.py:351-357 | The position is the first line longer than 5 and shorter than 100 with no four digits, else "Poste". |
| BaselineParser.DescriptionLinesOk | scripts/pdf_parser.py:366-378 | Every kept description line is over 20 characters, has no four digits and names no excluded word. |
| BaselineParser.CompanyOf | scripts/pdf_parser.py:336-349 | The company is the first company pattern's group, stripped, else "Entreprise". |
| BaselineParser.ExperienceOfBlock | scripts/pdf_parser.py:162-172 | Entry i carries block i's window in its id and the start date of its groups. A current position has an empty end date. |
| BaselineParser.ExperiencesOfBlocks | scripts/pdf_parser.py:162-173 | There is one entry per block. |
| BaselineParser.BlockExperiences | scripts/pdf_parser.py:162-173 | The loop equals the recursive function. |
| BaselineParser.ExtractExperiences | scripts/pdf_parser.py:137-176 | `extract_experiences` equals `ExperiencesOf`. |
| BaselineParser.ExperiencesFromBlocks | scripts/pdf_parser.py:143-173 | No section gives no entry. Otherwise there is one entry per date match, in pattern-then-position order, each built from its own block. |
| BaselineParser.ScanEducation | scripts/pdf_parser.py:193-221 | The loop with the open entry equals the recursive scan. |
| BaselineParser.ExtractEducation | scripts/pdf_parser.py:178-224 | `extract_education` equals `EducationOf`. |
| BaselineParser.EduScanOk | scripts/pdf_parser.py:196-221 | Every flushed entry has its ordinal in its id, its degree line as degree, and an institution that is '' or a school line. |
| BaselineParser.EduScanDegrees | scripts/pdf_parser.py:202-213 | There is one entry per degree line, in order: each degree line opens one and flushes the previous one. |
| BaselineParser.EducationEntries | scripts/pdf_parser.py:193-221 | The entries are exactly the section's degree lines, in order. Each institution is the first school line of its entry's span (the degree line itself, then the lines up to the next degree line), '' when the span has none. Both dates are ''. |
| BaselineParser.FirstSchoolFrom | scripts/pdf_parser.py:215-218 | The first school line before the next degree line is a school line that is not a degree line, or '' when there is none. |
| BaselineParser.EduScanSchools | scripts/pdf_parser.py:198-221 | The flushed entries keep their institutions, the open entry ends with its set institution or the first school line still to come in its span, and every later degree line's entry gets its span's first school line: the institution is set once, by the first school line. |
| BaselineParser.EducationOfCleaned | scripts/pdf_parser.py:413-419 | On cleaned text there is at most one education entry. |
| BaselineParser.EduScanOfTwoLines | scripts/pdf_parser.py:193-221 | A line followed by an empty line gives at most one entry. |
| BaselineParser.VocabularyWordsCount | scripts/pdf_parser.py:242-250 | Each vocabulary word is kept exactly as often as it occurs, and every other word is dropped. |
| BaselineParser.CollectSkills | scripts/pdf_parser.py:243-250 | The loop builds one skill per vocabulary occurrence. |
| BaselineParser.ExtractSkills | scripts/pdf_parser.py:226-253 | `extract_skills` equals `SkillsOf`. |
| BaselineParser.SkillsPerOccurrence | scripts/pdf_parser.py:236-250 | Every occurrence of a vocabulary word gives one entry, repeats included, technical and intermediate, with its index. |
| BaselineParser.FoundRowsExact | scripts/pdf_parser.py:273-274 | A table row is reported exactly when the section mentions its key as a whole word, and never more often than the table holds it. |
| BaselineParser.ScanTable | scripts/pdf_parser.py:273-279 | The loop over the table equals the found rows, each made into a language. |
| BaselineParser.ExtractLanguages | scripts/pdf_parser.py:255-282 | `extract_languages` equals `LanguagesOf`. |
| BaselineParser.LanguagesFromTable | scripts/pdf_parser.py:265-279 | Each language is a mentioned row, with the key title-cased and the row's fixed level. |
| BaselineParser.ParseCv | scripts/pdf_parser.py:402-425 | `parse_cv` runs every extractor on the cleaned text, or returns the empty record for an empty text. |
| BaselineParser.ParseCvSeesOneLine | scripts/pdf_parser.py:407-421 | The empty text gives the empty record. The name can only be the whole cleaned text, and there is at most one education entry. |
| RegexParser.HeadingLeftmost | lib/utils/parseCVregex.ts:48 | A heading match is the leftmost occurrence of any alternative, and there is no match only when no alternative occurs. |
| RegexParser.FindIndices | lib/utils/parseCVregex.ts:47-52 | The first loop records, for each of the four keys, the index of its first heading, or none. |
| RegexParser.Indices | lib/utils/parseCVregex.ts:39-52 | The record has one index per key, the index of that key's heading. |
| RegexParser.FoundInMembers | lib/utils/parseCVregex.ts:55-56 | A heading survives the filter exactly when its key has an index. |
| RegexParser.FoundInNone | lib/utils/parseCVregex.ts:56 | Nothing survives when no key has an index. |
| RegexParser.FoundInDistinct | lib/utils/parseCVregex.ts:55-56 | The surviving keys are distinct. |
| RegexParser.Insert | lib/utils/parseCVregex.ts:57 | One insertion step adds exactly one heading. |
| RegexParser.InsertSorted | lib/utils/parseCVregex.ts:57 | Insertion keeps the headings ordered by index. |
| RegexParser.InsertDistinct | lib/utils/parseCVregex.ts:57 | Insertion keeps the keys distinct. |
| RegexParser.SortByIndex | lib/utils/parseCVregex.ts:57 | Sorting is a permutation. |
| RegexParser.SortByIndexOk | lib/utils/parseCVregex.ts:57 | The sorted headings are ordered by index, with distinct keys. |
| RegexParser.HeadingsOk | lib/utils/parseCVregex.ts:55-57 | The sorted headings are ordered by index, one per key that has an index, each carrying that index. |
| RegexParser.SliceSections | lib/utils/parseCVregex.ts:71-76 | The second loop stores every slice. |
| RegexParser.SplitTextIntoSections | lib/utils/parseCVregex.ts:38-79 | `splitTextIntoSections` equals `SectionsOf`. |
| RegexParser.PiecesJoin | lib/utils/parseCVregex.ts:71-76 | The slices from heading i on, concatenated, are the text from that heading's index to the end. |
| RegexParser.ContentPieces | lib/utils/parseCVregex.ts:75 | Slice i is stored under the key of heading i. |
| RegexParser.ContentKeys | lib/utils/parseCVregex.ts:71-76 | Nothing is stored under a key no heading has. |
| RegexParser.SectionSlices | lib/utils/parseCVregex.ts:73-75 | Each found section is the text from its heading to the next found heading, or to the end. |
| RegexParser.SectionsJoin | lib/utils/parseCVregex.ts:63-76 | personalInfo is the prefix before the first heading, and personalInfo followed by the slices in order is the text. |
| RegexParser.SectionKeysFound | lib/utils/parseCVregex.ts:56-76 | A section exists exactly when its key has an index. |
| RegexParser.SectionsPartition | lib/utils/parseCVregex.ts:38-79 | The sections partition the text: each exists exactly when its heading was found, and runs from its heading to the next. personalInfo plus the slices in order reconstructs the text. |
| RegexParser.NoHeadingAllPersonal | lib/utils/parseCVregex.ts:65-68 | Without any heading, the whole text is personalInfo and there is no section key. |
| RegexParser.RangeAt | lib/utils/parseCVregex.ts:28 | A match of the date-range pattern lies inside the line and never defines both of its groups. |
| RegexParser.DateRange | lib/utils/parseCVregex.ts:28 | The leftmost match of the date-range pattern has the same two facts. |
| RegexParser.SplitAtDatesJoin | lib/utils/parseCVregex.ts:115 | The lookahead split loses nothing: the pieces without the captures concatenate to the text. |
| RegexParser.SplitAtDatesOneLine | lib/utils/parseCVregex.ts:115 | No piece or capture holds a line break the text does not. |
| RegexParser.LongEntries | lib/utils/parseCVregex.ts:115 | The kept entries are among the split's pieces, and are no more of them. |
| RegexParser.ExperienceOfEntry | lib/utils/parseCVregex.ts:117-143 | An entry is skipped exactly when it has fewer than two non-blank lines. |
| RegexParser.ParseExperiences | lib/utils/parseCVregex.ts:111-147 | `parseExperiences` equals `ExperiencesOf`. |
| RegexParser.PushedFrom | lib/utils/parseCVregex.ts:117-144 | Item i of a `forEach` push is what the callback built for some entry when i items had been pushed. |
| RegexParser.ExperienceShape | lib/utils/parseCVregex.ts:121-143 | The position is the first kept line with its date range removed, trimmed. The company and location are the first two pieces of the second line split at - – @ \|, trimmed. The description is the remaining lines joined by line breaks, trimmed. The dates are the range's two groups. Position, company and description are trimmed. The company has no separator (- – @ \|). isCurrentPosition is the test on the end date. The two dates are never both set. Without a date match the start date is 'Unknown'. |
| RegexParser.CompanyClean | lib/utils/parseCVregex.ts:128-129 | The company holds no separator and no surrounding whitespace. |
| RegexParser.DatesOf | lib/utils/parseCVregex.ts:121-123 | The start and end dates are never both set. Without a match the start date is 'Unknown' and there is no end date. |
| RegexParser.NotCurrentWithoutEnd | lib/utils/parseCVregex.ts:142 | With no end date the current test runs on '' and fails. |
| RegexParser.ExperiencesFromEntries | lib/utils/parseCVregex.ts:115-146 | Experience i is built from one of the section's entries. |
| RegexParser.ExperiencesOneLine | lib/utils/parseCVregex.ts:118-119 | A section on one line yields no experience. |
| RegexParser.EducationOfEntry | lib/utils/parseCVregex.ts:159-179 | An entry is skipped exactly when it has fewer than two non-blank lines. |
| RegexParser.ParseEducation | lib/utils/parseCVregex.ts:154-183 | `parseEducation` equals `EducationOf`. |
| RegexParser.EducationShape | lib/utils/parseCVregex.ts:163-179 | The degree is the first line with its date removed, trimmed. The institution is the trimmed second line. The description is the remaining lines joined by line breaks, trimmed, and the dates are the range's two groups. There is no field, and the two dates are never both set. |
| RegexParser.EducationFromEntries | lib/utils/parseCVregex.ts:157-180 | Education i is built from one of the section's entries. |
| RegexParser.EducationOneLine | lib/utils/parseCVregex.ts:160-161 | A section on one line yields no education. |
| RegexParser.RemoveHeading | lib/utils/parseCVregex.ts:192 | Without a heading the text is unchanged. Otherwise exactly the heading's length is cut out. |
| RegexParser.LongPiecesShape | lib/utils/parseCVregex.ts:194 | Every kept piece is trimmed, longer than one character, and free of separators. |
| RegexParser.ListItemsShape | lib/utils/parseCVregex.ts:192-194 | Every list item is trimmed, longer than one character, and free of separators. |
| RegexParser.SkillsOf | lib/utils/parseCVregex.ts:190-201 | There is one technical skill per item, named after it, with no level. |
| RegexParser.SkillsShape | lib/utils/parseCVregex.ts:190-200 | Every skill name is trimmed, over one character and free of separators. Every category is 'technical'. |
| RegexParser.LanguagesOf | lib/utils/parseCVregex.ts:209-229 | There is one language per item. |
| RegexParser.LanguageShape | lib/utils/parseCVregex.ts:213-227 | The level is 'native' or one of the codes, up to case. The name is non-empty, and is a letter run or the whole item. |
| RegexParser.ItemLevel | lib/utils/parseCVregex.ts:220 | An item's level is 'native' when no code in parentheses follows the name. In every case it is 'native' or, lower-cased, one of the codes. |
| RegexParser.LevelCase | lib/utils/parseCVregex.ts:215 | A captured level is one of the codes once lower-cased. |
| RegexParser.LanguagesShape | lib/utils/parseCVregex.ts:209-228 | Every language has a non-empty name and a level that is 'native' or a code. |
| RegexParser.PersonalInfoName | lib/utils/parseCVregex.ts:88-104 | The name is one trimmed line, and the whole trimmed text when the text has no line break. Email, phone, LinkedIn and website are the patterns' first matches, and there is no location. |
| RegexParser.PersonalInfoFirstLine | lib/utils/parseCVregex.ts:95 | The name is the trimmed FIRST line: for a first line followed by a break, whatever follows does not matter. |
| RegexParser.ParseCvText | lib/utils/parseCVregex.ts:239-251 | `parseCVText` equals `ParseCvTextOf` with the source's patterns. |
| RegexParser.ParseCvTextEmpty | lib/utils/parseCVregex.ts:243-248 | The empty text gives `{}` personal info and four empty lists. |
| RegexParser.ParseCvTextAbsent | lib/utils/parseCVregex.ts:244-247 | A section whose heading is absent contributes no item. |
| RegexParser.ParseCvTextNoHeading | lib/utils/parseCVregex.ts:63-68 | Without any heading, everything is personal info and the lists are empty. |
| RegexParser.ParseCvTextOneLine | lib/utils/parseCVregex.ts:118-119 | A one-line text yields neither experience nor education. |
| RegexParser.ContentWithin | lib/utils/parseCVregex.ts:75 | Every slice is no longer than the text, and lacks any character the text lacks. |
| GenerationReducer.ResetInitial | lib/hooks/useCVGeneration.ts:22-48 | RESET gives three pending steps (validation, ai-improvement, pdf-generation), empty texts, not generating, no error, no resume id and not completed. |
| GenerationReducer.ReduceValid | lib/hooks/useCVGeneration.ts:50-121 | Every action keeps the state valid and keeps every step's id, in order. |
| GenerationReducer.UpdateSteps | lib/hooks/useCVGeneration.ts:58-66 | Only steps whose id equals the target change, and they get the status and details. |
| GenerationReducer.OnlyTargetChanges | lib/hooks/useCVGeneration.ts:58-97 | A step other than the action's target is unchanged. |
| GenerationReducer.UnknownStepUnchanged | lib/hooks/useCVGeneration.ts:86-98 | SET_STEP_STATUS with an unknown step id leaves the state unchanged. |
| GenerationReducer.ProcessStartEffect | lib/hooks/useCVGeneration.ts:71-84 | PROCESS_START sets the AI step text and the target's status, with empty details. Nothing else changes. |
| GenerationReducer.ProcessSuccessEffect | lib/hooks/useCVGeneration.ts:52-67 | PROCESS_SUCCESS: the resume id is set exactly when the payload's is non-empty. isCompleted comes from the payload. The AI step text is cleared exactly when completed. |
| GenerationReducer.ResumeIdOf | lib/hooks/useCVGeneration.ts:55 | `resumeId \|\| null`: present exactly when non-empty. |
| GenerationReducer.SettersOwnField | lib/hooks/useCVGeneration.ts:100-119 | SET_ERROR, SET_IS_GENERATING and SET_AI_RESPONSE each change only their own field. An unknown action changes nothing. |
| GenerationReducer.ReduceIdempotent | lib/hooks/useCVGeneration.ts:50-121 | Dispatching an action twice is dispatching it once. |
| GenerationReducer.StepNameInjective | lib/hooks/useCVGeneration.ts:24-34 | Distinct step ids have distinct names. |
| CvForm.Form.constructor | lib/hooks/useCVForm.ts:13-31 | Six empty personal strings, four empty lists, and cleared flags. |
| CvForm.Form.UpdatePersonalInfo | lib/hooks/useCVForm.ts:34-42 | Exactly one personal field changes, and nothing else. |
| CvForm.PersonalSet | lib/hooks/useCVForm.ts:37-40 | Setting a field gives it the value and keeps every other field. |
| CvForm.Form.AddExperience | lib/hooks/useCVForm.ts:45-60 | One default experience (empty strings, not current) is appended. |
| CvForm.Form.UpdateExperience | lib/hooks/useCVForm.ts:62-76 | The list becomes the copy with field f of entry i set. |
| CvForm.Form.RemoveExperience | lib/hooks/useCVForm.ts:78-83 | The list without entry i. |
| CvForm.Form.AddEducation | lib/hooks/useCVForm.ts:86-100 | One default education is appended. |
| CvForm.Form.UpdateEducation | lib/hooks/useCVForm.ts:102-116 | The copy with field f of entry i set. |
| CvForm.Form.RemoveEducation | lib/hooks/useCVForm.ts:118-123 | The list without entry i. |
| CvForm.Form.AddSkill | lib/hooks/useCVForm.ts:126-137 | One technical, intermediate skill is appended. |
| CvForm.Form.UpdateSkill | lib/hooks/useCVForm.ts:139-149 | The copy with field f of entry i set. |
| CvForm.Form.RemoveSkill | lib/hooks/useCVForm.ts:151-156 | The list without entry i. |
| CvForm.Form.AddLanguage | lib/hooks/useCVForm.ts:159-169 | One B1 language is appended. |
| CvForm.Form.UpdateLanguage | lib/hooks/useCVForm.ts:171-185 | The copy with field f of entry i set. |
| CvForm.Form.RemoveLanguage | lib/hooks/useCVForm.ts:187-192 | The list without entry i. |
| CvForm.UpdateAtSpec | lib/hooks/useCVForm.ts:67-71 | An update in range keeps the length and changes only entry i, through the field edit. Index length appends. A negative index changes nothing. |
| CvForm.ExperienceSet | lib/hooks/useCVForm.ts:68-71 | Setting a field of an experience to a value of its type changes only that field. |
| CvForm.EducationSet | lib/hooks/useCVForm.ts:108-111 | Setting a field of an education changes only that field. |
| CvForm.SkillSet | lib/hooks/useCVForm.ts:141-144 | Setting a field of a skill changes only that field. |
| CvForm.LanguageSet | lib/hooks/useCVForm.ts:177-180 | Setting a field of a language changes only that field. |
| CvForm.FilterIndexSlices | lib/hooks/useCVForm.ts:81 | The index filter keeps the other entries in order and drops exactly entry i. |
| CvForm.RemoveAtSpec | lib/hooks/useCVForm.ts:78-83 | The removal drops exactly entry i and keeps the others in order. An out-of-range index leaves the list unchanged. |
| CvForm.Form.LoadParsedData | lib/hooks/useCVForm.ts:195-230 | The form becomes the merge of the form and the parsed data. |
| CvForm.MergeFields | lib/hooks/useCVForm.ts:199-227 | Each personal field is the parsed one when truthy, else the form's. Each list is the parsed one when non-empty, else the form's. |
| CvForm.MergeNothing | lib/hooks/useCVForm.ts:199-227 | Loading an empty parse keeps the form. |
| CvForm.MergeIdempotent | lib/hooks/useCVForm.ts:199-227 | Loading the same parse twice is loading it once. |
| CvForm.SubmitError | lib/hooks/useCVForm.ts:239-249 | The name is checked first, then the email. There is no error exactly when both are present. |
| CvForm.Form.SubmitComplete | lib/hooks/useCVForm.ts:232-249 | The error is cleared and isSubmitting set. A missing name or email stops with its message and the toast, leaving isSubmitting true. |
| GeminiFix.FixPersonalFields | lib/gemini/service.ts:153-160 | Each personal field is the improved value if truthy, else the original if truthy, else "". |
| GeminiFix.Pick | lib/gemini/service.ts:154-159 | `improved \|\| original \|\| ""` is always a string with that priority. |
| GeminiFix.FixListsShape | lib/gemini/service.ts:161-190 | A list is [] when the answer's value is not an array; otherwise it keeps the length. Experience i is the answer's item i normalised with index i. |
| GeminiFix.MapIndexed | lib/gemini/service.ts:161-190 | The array test plus `map` with the index. |
| GeminiFix.KeepId | lib/gemini/service.ts:162 | A truthy id is kept. A missing one becomes `prefix-time-index`. |
| GeminiFix.OrDefault | lib/gemini/service.ts:163-189 | `x \|\| d`: a truthy value is kept, and otherwise the default is used. |
| GeminiFix.FixedComplete | lib/gemini/service.ts:161-190 | Every fixed experience has every field. Every skill has an id, level and category. Every language has an id and a level. |
| GeminiFix.SkillDefaults | lib/gemini/service.ts:180-185 | Skill level defaults to 'intermediate' and category to 'other'. Present values and ids are kept. |
| GeminiFix.FixIdempotent | lib/gemini/service.ts:150-194 | Normalising a normalised record again, at any later time, changes nothing. |
| GeminiFix.FixExperienceTwice | lib/gemini/service.ts:161-170 | A normalised experience is a fixed point. |
| GeminiFix.FixEducationTwice | lib/gemini/service.ts:171-179 | A normalised education is a fixed point. |
| GeminiFix.FixSkillTwice | lib/gemini/service.ts:180-185 | A normalised skill is a fixed point. |
| GeminiFix.FixLanguageTwice | lib/gemini/service.ts:186-190 | A normalised language is a fixed point. |
| GeminiFix.DropFenceOpen | lib/gemini/service.ts:116 | A leading ```json and the blanks after it are dropped, and nothing else. |
| GeminiFix.DropFenceClose | lib/gemini/service.ts:116 | A trailing ``` and the blanks before it are dropped, and nothing else. |
| GeminiFix.Preview | lib/gemini/service.ts:127-130 | The preview is the prefix of the content of length 200, or the whole content when it is shorter. |
| GeminiFix.JsonSliceShape | lib/gemini/service.ts:118-122 | The slice runs from the first '{' to the last '}' inclusive. There is none exactly when no '{' precedes some '}'. |
| GeminiFix.ImproveOutcomes | lib/gemini/service.ts:101-144 | An empty answer fails with "Aucun contenu généré par Gemini". Every failure carries the prefix "Impossible d'améliorer le CV: ". A success is the normalised parse. |
| GeminiFix.NoBraceFails | lib/gemini/service.ts:129-131 | An answer that is not JSON and has no '{' fails with the no-JSON message and the preview. |
| GeminiFix.CleanedAvoids | lib/gemini/service.ts:113-116 | Cleaning only removes characters. |
| PdfLayout.WrapLines | app/api/cv/generate/route.ts:144-162 | The loop of `wrapText` equals the greedy packing `Wrap`. |
| PdfLayout.WrapShort | app/api/cv/generate/route.ts:145 | A text that fits within the limit is one line. |
| PdfLayout.WrapJoin | app/api/cv/generate/route.ts:147-161 | When every word is non-empty, the lines joined by spaces give the text back, and no line is empty. |
| PdfLayout.FoldJoin | app/api/cv/generate/route.ts:151-158 | The packing keeps the words in order. |
| PdfLayout.StepJoins | app/api/cv/generate/route.ts:152-157 | One loop round keeps the join invariant. |
| PdfLayout.FoldBound | app/api/cv/generate/route.ts:152-157 | Every packed line is within the bound, or is a single word. |
| PdfLayout.WrapBound | app/api/cv/generate/route.ts:152-156 | Every line is at most max characters with the separator counted (max+1 as written), unless it is a single word. |
| PdfLayout.WrapOverflow | app/api/cv/generate/route.ts:152 | As written, "ab cd ef" at 4 gives the 5-character line "ab cd". |
| PdfLayout.WrapFixedSample | app/api/cv/generate/route.ts:152 | With the space counted, the same text breaks at every word. |
| PdfLayout.SplitSample | app/api/cv/generate/route.ts:147 | The sample splits into its three words. |
| PdfLayout.BulletShape | app/api/cv/generate/route.ts:181-197 | There is one "• " point per non-blank trimmed line, in order, each non-empty. The empty text gives none. |
| PdfLayout.BulletSingle | app/api/cv/generate/route.ts:184-192 | A trimmed non-blank line is a single bullet. |
| SkillGroups.CategoryDefaults | app/api/cv/generate/route.ts:344 | 'technical' is filed under "Compétences Techniques", a missing or empty category under "Autres", and any other under itself. |
| SkillGroups.GroupSkills | app/api/cv/generate/route.ts:342-347 | The `reduce` loop equals the map `Groups`. |
| SkillGroups.AddNameSpec | app/api/cv/generate/route.ts:345 | Filing one name: an existing group gets it at the end, a new group goes last, and the others are unchanged. |
| SkillGroups.GroupsDistinct | app/api/cv/generate/route.ts:342-347 | The groups have distinct categories and as many names as skills. |
| SkillGroups.GroupsAt | app/api/cv/generate/route.ts:342-347 | A category has a group exactly when some skill is filed under it. The group holds exactly those names, in input order. |
| SkillGroups.GroupsNames | app/api/cv/generate/route.ts:342-347 | Each group holds exactly its skills' names, at least one. |
| SkillGroups.GroupsCover | app/api/cv/generate/route.ts:344-345 | Every skill's category has a group. |
| SkillGroups.SortSorted | app/api/cv/generate/route.ts:350 | The sort orders the groups by the comparison. |
| SkillGroups.SortGroups | app/api/cv/generate/route.ts:350 | Sorting is a permutation. |
| SkillGroups.SortCount | app/api/cv/generate/route.ts:350 | Sorting keeps the number of names. |
| SkillGroups.SortDistinct | app/api/cv/generate/route.ts:350 | Sorting keeps the categories distinct. |
| SkillGroups.SortedNames | app/api/cv/generate/route.ts:349-350 | Each sorted group holds exactly the names filed under its category. |
| SkillGroups.GroupByCatSpec | app/api/cv/generate/route.ts:340-352 | The result is the groups sorted by the comparison, ordered and with distinct categories, then uppercased. Each group holds its skills' names in input order, at least one. The name count equals the skill count. Undefined input gives []. |
| PdfDocument.SanitizedShape | app/api/cv/generate/route.ts:89 | The sanitised name is never empty and has no whitespace. A missing or empty name gives "CV"; any other name has its whitespace runs replaced by "_". |
| PdfDocument.SanitizedWords | app/api/cv/generate/route.ts:89 | "a b c" becomes "a_b_c". |
| PdfDocument.RandomSuffix | app/api/cv/generate/route.ts:90 | The suffix is at most 99. |
| PdfDocument.FilePathShape | app/api/cv/generate/route.ts:88-94 | The path is `userId/CV_<name>__`, then one or two digits, then `_<timestamp>.pdf`. |
| PdfDocument.PresentKept | app/api/cv/generate/route.ts:232 | Every kept value is non-blank, and none is added. |
| PdfDocument.PresentNone | app/api/cv/generate/route.ts:232 | With every value blank, nothing is kept. |
| PdfDocument.PresentAll | app/api/cv/generate/route.ts:232 | With every value non-blank, all are kept, in order. |
| PdfDocument.PresentSnoc | app/api/cv/generate/route.ts:232 | One more value is kept exactly when it is non-blank. |
| PdfDocument.ContactSkipsBlank | app/api/cv/generate/route.ts:225-233 | Blank or missing contact fields are left out of the " \| "-joined line. |
| PdfDocument.EndDateText | app/api/cv/generate/route.ts:252 | The end date is shown, else "Présent" for a current position, else "". |
| PdfDocument.CurrentShowsPresent | app/api/cv/generate/route.ts:252-254 | A current position without an end date shows "start \| Présent". |
| PdfDocument.SectionTitle | app/api/cv/generate/route.ts:240-241 | A section title takes its plural form exactly when there is more than one entry; the experience and education titles are both built this way. |
| PdfDocument.LanguageText | app/api/cv/generate/route.ts:327 | The language text is the name, followed by " (level)" exactly when there is a level. |
| PdfDocument.SkippedEntries | app/api/cv/generate/route.ts:245-325 | Entries lacking a company or position, entries lacking an institution or degree, and languages without a name draw nothing. A drawn entry whose header fits on one line begins with it. |
| PdfDocument.WrappedBound | app/api/cv/generate/route.ts:144-169 | Every line the page receives from `wrapText` as written is at most 101 characters (one over `maxLineLength`), or a single word. |
| PdfDocument.ProgramLinesOverflow | app/api/cv/generate/route.ts:144-169 | The 101 is reached: two words of 100 characters in all, joined by a space, are drawn as one 101-character line. |
| PdfDocument.WrappedFixedBound | app/api/cv/generate/route.ts:152 | With the corrected fit test, which counts the joining space, every line is at most 100 characters or a single word. |
| PdfDocument.EmptyDocument | app/api/cv/generate/route.ts:212-236 | With no section data, the page holds the name and the contact line. |
| PdfDocument.Page.AddWrappedText | app/api/cv/generate/route.ts:165-178 | The page gets the lines of the broken text. |
| PdfDocument.Page.AddWrappedTexts | app/api/cv/generate/route.ts:191-194 | Each text is broken and drawn in turn. |
| PdfDocument.Page.AddBulletPoints | app/api/cv/generate/route.ts:181-197 | The page gets the bullet points, each wrapped. |
| PdfDocument.Page.AddSectionHeader | app/api/cv/generate/route.ts:200-210 | The page gets the uppercased title. |
| PdfDocument.Page.AddEntry | app/api/cv/generate/route.ts:247-263 | The page gets the header, the details when present, then the points. |
| PdfDocument.Page.AddEntries | app/api/cv/generate/route.ts:242-266 | The page gets the title, then each drawn entry. |
| PdfDocument.Page.AddExperiences | app/api/cv/generate/route.ts:239-269 | The page gets nothing without experiences, else the title and the drawn entries. |
| PdfDocument.Page.AddEducations | app/api/cv/generate/route.ts:272-299 | The page gets nothing without education, else the title and the drawn entries. |
| PdfDocument.Page.AddGroup | app/api/cv/generate/route.ts:307-314 | The page gets the group's "CAT:" line, then its names joined by ", ", each wrapped. |
| PdfDocument.Page.AddGroups | app/api/cv/generate/route.ts:307-315 | The page gets every group's lines, in the order of the groups. |
| PdfDocument.Page.AddSkills | app/api/cv/generate/route.ts:302-318 | The page gets the heading, then each group's "CAT:" line and its names. |
| PdfDocument.Page.AddLanguages | app/api/cv/generate/route.ts:321-330 | The page gets the heading and the named languages. |
| PdfDocument.Page.Generate | app/api/cv/generate/route.ts:111-335 | The page ends up holding `Document(cv)`, broken with `wrapText` as written: the name, the contact line, then each non-empty section. |
| PdfDocument.Page.constructor | app/api/cv/generate/route.ts:112-116 | A new page holds no text. |
| Utils.NonEmpty | lib/utils/index.ts:10 | `filter(Boolean)` keeps only non-empty strings and never adds any. |
| Utils.CnSnoc | lib/utils/index.ts:9-11 | An empty argument is dropped. The others are kept, space-joined, in order. |
| Utils.CnAllEmpty | lib/utils/index.ts:9-11 | With no non-empty argument, the result is "". |
| Utils.NonEmptyMembers | lib/utils/index.ts:10 | Every kept argument comes from the input, and each non-empty input is kept. |
| Utils.CnSplit | lib/utils/index.ts:9-11 | When no argument has a space, splitting the result at spaces gives back the non-empty arguments. |
| Utils.EmailSpec | lib/utils/index.ts:28-31 | `isValidEmail` holds exactly when the regular expression matches: a non-empty local part, '@', a domain with an inner '.', no whitespace and no other '@'. |
| Utils.EmailSound | lib/utils/index.ts:28-31 | An accepted address matches the expression. |
| Utils.EmailComplete | lib/utils/index.ts:28-31 | An address that matches is accepted. |
| Utils.EmailSamples | lib/utils/index.ts:28-31 | "a@b.c" is accepted. "a@b@c.d", "a@bc" and "a b@c.d" are rejected. |
| Utils.CleanTextShape | lib/utils/index.ts:37-42 | The cleaned text has no whitespace at either end and single spaces only. A first word character is not lower-case. |
| Utils.CleanTextIdempotent | lib/utils/index.ts:37-42 | `cleanText` is idempotent. |
| Utils.CleanedFixed | lib/utils/index.ts:37-42 | Cleaning text of that shape changes nothing. |
| Utils.UpperFirst | lib/utils/index.ts:41 | Only the first character can change. |
| Utils.CollapseSingle | lib/utils/index.ts:40 | Text with single spaces only is left as it is. |
| Utils.ValidatePassword | lib/utils/index.ts:72-87 | The errors are exactly the failed rules, and isValid holds exactly when there is none. |
| Utils.PasswordErrorsSpec | lib/utils/index.ts:73-86 | Each message is present exactly when its rule fails, with no repeat, in the order length, uppercase, lowercase, digit. |
| Utils.PasswordSamples | lib/utils/index.ts:72-87 | "" fails all four rules. "weak" fails length, uppercase and digit. |
| ApiRoutes.BearerToken | lib/utils/apiRoutes.ts:36-41 | A missing or empty header fails with UNAUTHORIZED. Otherwise the token is the header with its first "Bearer " removed. |
| ApiRoutes.BearerPrefix | lib/utils/apiRoutes.ts:41 | "Bearer t" yields t. |
| ApiRoutes.ParseAndValidate | lib/utils/apiRoutes.ts:72-84 | The CV is cvData, else formData. Both missing gives CV_DATA_MISSING. A missing name or email gives VALIDATION_FAILED. |
| ApiRoutes.ParseAccepts | lib/utils/apiRoutes.ts:72-84 | The payload is accepted exactly when the chosen CV has a name and an email. |
| ApiRoutes.CreateErrorResponse | lib/utils/apiRoutes.ts:112-169 | The known codes get fixed statuses (401, 400, 400, 500, 500) and messages. Any other Error gets the caller's status with its message as details. A non-Error gets "Erreur inconnue". success is always false. |
| ApiRoutes.StatusIgnoredForKnown | lib/utils/apiRoutes.ts:114-146 | For a known code, the status argument does not matter. |
| ApiRoutes.RejectionsAreClientErrors | lib/utils/apiRoutes.ts:36-169 | A rejected payload always gives a 400 naming what is missing, and a missing header gives a 401. |
| FileUpload.ValidateFile | lib/hooks/useFileUpload.ts:22-39 | The size is checked first (10 MB); then the type among the four allowed. None exactly when both pass. |
| FileUpload.SizeFirst | lib/hooks/useFileUpload.ts:6-32 | An oversized file gets the size message whatever its type. A 10 MB PDF is accepted. |
| FileUpload.Uploader.constructor | lib/hooks/useFileUpload.ts:15-19 | No file, no error, no parsed data, nothing sent. |
| FileUpload.Uploader.HandleFileSelect | lib/hooks/useFileUpload.ts:41-62 | An invalid file only sets the error. A valid one is shown. Only a PDF is sent to be parsed, and its answer may set the error with the toast and the parsed data. Every file shown or sent passed validation. |
| FileUpload.Uploader.HandleDrop | lib/hooks/useFileUpload.ts:64-72 | The drag highlight is cleared. With files, the first one is selected with the full effect of `handleFileSelect` on every other field; with none, nothing else changes. |
| FileUpload.Uploader.RemoveFile | lib/hooks/useFileUpload.ts:156-159 | The file and the error are cleared, and the parsed data stays. |
| ModalService.ValidateCVData | lib/modal/cv-generation-modal-service.ts:23-32 | Invalid, with "Nom et email requis pour générer le CV", exactly when the name or email is falsy. A valid result has no error. |
| ModalService.AIStreamText | lib/modal/cv-generation-modal-service.ts:138-142 | The text starts with the introduction followed by the name, and ends with the fixed rest. |
| ModalService.Stream.constructor | lib/modal/cv-generation-modal-service.ts:117-118 | The words are the text split at spaces, and the index starts at 0. |
| ModalService.Stream.Tick | lib/modal/cv-generation-modal-service.ts:120-129 | A tick appends the next word, behind a space unless it is the first. After the last word, the interval is cleared. The response is always the start plus the first currentIndex words joined by spaces. |
| ModalService.Stream.Ticks | lib/modal/cv-generation-modal-service.ts:120-129 | After k ticks, min(k, n) words are shown. After more than n, the interval is cleared. |
| ModalService.StreamComplete | lib/modal/cv-generation-modal-service.ts:117-128 | Once every word is shown, the response is the start followed by the whole text. |
| ModalService.GenerationService.constructor | lib/modal/cv-generation-modal-service.ts:6 | No cleanup is stored. |
| ModalService.GenerationService.SimulateAIStreaming | lib/modal/cv-generation-modal-service.ts:113-133 | A stream over the words starts, and its cleanup is stored. |
| ModalService.GenerationService.StopStreaming | lib/modal/cv-generation-modal-service.ts:147-152 | The stored cleanup runs once and is forgotten, so a second call does nothing. |
| Multipart.ExtractPdf | api/parser.py:68-82 | The bytes after the first `\r\n\r\n` of the first part that names `filename=`, mentions `.pdf` and has that separator; None when no part does. |
| Multipart.Payload | api/parser.py:77-79 | The payload is an untrimmed suffix of its part. |
| Multipart.PartsJoin | api/parser.py:71-72 | The parts, joined with `--boundary`, give the body back. |
| Multipart.SinglePart | api/parser.py:72 | A body without the delimiter is a single part. |
| Multipart.Delimiter | api/parser.py:71 | The delimiter is never empty. |

## Left out

- PDF text extraction (pdfplumber, pdf-parse, the auto-install step) and
  the spaCy loading: foreign libraries. The text is an input of `ParseCv`.
- The command-line entry points, the HTTP handlers of the Python endpoint and
  of the Next.js routes, the storage and database steps of the generate
  route, and the Supabase client created after the header check: I/O and
  remote services.
- The Gemini calls and prompts, including `improveCVFormData` and
  `generateFromKeywords`, which only trim the model's answer: remote
  service. `ImproveResult` takes the answer as a parameter and `JSON.parse`
  as a function `parse`.
- jsPDF drawing, fonts and the `currentY` millimetre arithmetic: a foreign
  renderer with floating-point coordinates. The page is modelled as the
  sequence of texts it receives.
- Timers, effects and async orchestration (`setInterval`, `startGeneration`,
  `generatePDF` in the hook, `parsePDFfile`'s fetch, `callGeneratePDF`, the
  authentication and fetch part of `handleSubmitComplete`). A tick is a
  call of `Stream.Tick`. The parsing answer is a parameter of
  `HandleFileSelect`, and the files sent are recorded in `parseRequests`.
- Python `hash()`, `Date.now()`, `Math.random()` and `generateUniqueId`:
  ids are the opaque `Id` values of `cv_types.dfy`, the clock is a `nat`
  parameter, and the random number is a parameter in [0, 1).
- `localeCompare`: the sort in `groupByCat` takes an abstract total order
  `le`.
- SkillGroups.GroupByCatSpec: distinct categories are proved before
  uppercasing. Uppercasing is not injective, so the uppercased keys are
  not claimed distinct.
- Full regex semantics: the email, phone, URL, website, company and
  location patterns are parameters of the extractors. Case-insensitive
  matching and the `\s`, `\w`, `\b` classes are modelled for ASCII and
  Latin-1 letters only; the Unicode spaces of JavaScript `\s` are not.
- Unicode whitespace: `Text.IsSpace` is the six ASCII whitespace
  characters. JavaScript `trim()` and Python `strip()` and `split()` also
  remove other Unicode spaces (U+00A0 and the like, and for Python
  `\x1c`-`\x1f` and U+0085), so a text holding them is trimmed and split
  less in the model than in the program.
- Full Unicode case mapping: `Text.Upper`, `Text.Lower`, `TitleWord` and
  the uppercasing in `cleanText` and `groupByCat` map ASCII and Latin-1
  letters one to one and leave every other character as it is. JavaScript
  `toUpperCase` and Python `.lower()` and `.title()` do the full mapping
  (ß becomes "SS", ÿ becomes U+0178, µ becomes U+039C), which can also
  change a string's length. Python `.title()` also lowercases the rest of
  each word; the words it is applied to here are lower-case ASCII.
- UTF-16 lengths: strings are sequences of Unicode code points, which is
  what Python's `len` counts. JavaScript `.length` and `substring` count
  UTF-16 code units, so a character outside the Basic Multilingual Plane
  (an emoji) counts once in the model and twice in the program. This
  affects the password length rule of `validatePassword`, the 200-character
  preview in the Gemini error messages, the `maxLineLength` limit of
  `wrapText`, and the `trim().length > 10` filter of `parseExperiences`
  and `parseEducation`. For example, a password of four emoji and no
  other character has length 8 in the program and 4 in the model.
- Multipart.ExtractPdf: the `except` branch is not modelled, because the
  delimiter is never empty and nothing else in the loop can raise. The
  boundary is taken as already-encoded bytes.
- CvForm.Form.UpdateExperience, UpdateEducation, UpdateSkill and
  UpdateLanguage require `index <= length`: an index further out would make a
  sparse JavaScript array, and holes are not modelled.
- ModalService.AIStreamText: a missing name renders as "undefined" in the
  template, which is modelled but not stated about.
- The parser route's whitespace normalisation before `parseCVText` is not
  modelled. `RegexParser.ParseCvTextOneLine` states what it implies: a text
  on one line yields neither experience nor education.
- ImprovedParser.LinkedInWwwDoubled records the doubled `www.` as the
  program behaves. It is not corrected in the model.
- `PdfDocument.Page.Generate` draws with `wrapText` as written. The corrected
  breaking is proved about (`PdfDocument.WrappedFixedBound`) but is not what
  the page draws.

## Findings

| source | as written | input that shows it | evidently intended | confidence | as-written member | corrected member |
|---|---|---|---|---|---|---|
| app/api/cv/generate/route.ts:152 | the fit test measures `currentLine + word`, without the space joining them | "ab cd ef" with a limit of 4 gives the 5-character line "ab cd" | a line is at most the limit unless it is a single word, so the space must be counted | high, by proof; not executed | PdfLayout.WrapOverflow | PdfLayout.WrapBound |

`PdfDocument.Page.Generate` draws the page as the program does, with
`wrapText` as written (`PdfDocument.ProgramLines`). `PdfDocument.WrappedBound`
bounds its lines by 101 characters, and `PdfDocument.ProgramLinesOverflow`
shows that 101 is reached at the real limit of 100. The corrected breaking
(`PdfDocument.FixedLines`) can be passed to the same page model, since
`PdfDocument.Document` takes the breaking as a parameter.
`PdfDocument.WrappedFixedBound` proves that every line it draws is at most
100 characters or a single word.
