# CourseSensei webhook, modelled in Dafny

CourseSensei is a chatbot backend. A Dialogflow agent posts each recognised
question to `webhook.py`. The question carries an intent name, its
parameters and the conversation's contexts. The webhook answers from an OWL
ontology of courses, instructors, programs, terms, session plans and
assessments. This project models that ontology as a knowledge graph, together
with the answering logic around it:

- the input helpers `sanitize_id` and `validate_input`;
- the dotted-path reader `get_nested_property` and the pager `paginate_items`;
- the memoised lookups `get_course` and `get_instructor`, and the accessors
  `get_course_metadata` and `get_basic_info`;
- the two generic handlers and every `query_*` handler;
- the `INTENT_HANDLERS` table;
- the page-cursor and dispatch logic of the `/webhook` endpoint.

Seven of the `query_*` handlers are defined but never registered in
`INTENT_HANDLERS` (webhook.py:441-485): `query_instructor_for_course`,
`query_assessment_tools`, `query_course_credits`, `query_session_info`,
`query_reading_materials`, `query_instructor_contact` and
`query_total_sessions`. No webhook request reaches them: the intents
`GetInstructorForCourse`, `GetAssessmentTools`, `GetCourseCredits`,
`GetSessionInfo`, `GetInstructorContact` and `GetTotalSessions` go to the
generic handlers instead. The model states what each of the seven does when
called directly, and `Dispatcher.Dispatch` never routes to them.

The model is organised in these modules:

- `Graph`: individuals, attribute values, the `"NA"` sentinel, Python truthiness and search order.
- `Text`: `sanitize_id`, `validate_input`, `str.split`, `int()` and the number regex.
- `PathResolver`: `get_nested_property`.
- `Pagination`: `paginate_items` and the page clamp.
- `Replies`: the parameter dictionary, the reply (text, or an exception) and the message templates.
- `Resolvers`: `get_course`, `get_instructor` and their LRU memo class.
- `Listings`: comma-joined listings and course-title collection.
- `GenericHandlers`: `handle_standard_query` and `handle_list_query`.
- `CourseQueries`, `InstructorQueries`, `AssessmentQueries`, `ProgramQueries`, `Summaries` and `SessionPlan`: the `query_*` handlers.
- `Dispatcher`: `INTENT_HANDLERS` and `webhook()`.

A handler that raises is modelled by the reply `Fault`. Examples are joining a
non-string, `int()` on a bad page and `.lower()` on a non-string. The endpoint
turns a `Fault` into its apology. Loops in the source are methods with loop
invariants. Each method is proved equal to a specification function, and the
lemmas beside each function state what the reply means.

## Model

| member | source | states |
|---|---|---|
| Text.SanitizeId | webhook.py:34-36 | every character of an ontology id is a lower-case letter, digit or underscore |
| Text.CollapseChars | webhook.py:36 | replacing runs of non-word characters leaves only word characters, each an underscore or a character of the input |
| Text.SanitizeIdIdempotent | webhook.py:34-36 | sanitising an id again leaves it unchanged |
| Text.MatchesInputClassIff | webhook.py:42 | the anchored match of `[\w\s-]+` succeeds iff the text is non-empty and made only of word, space and hyphen characters |
| Text.ValidateInputIff | webhook.py:38-42 | input is valid iff it has 1 to 50 characters, all word, space or hyphen characters |
| Text.Split | webhook.py:50 | `str.split` gives at least one part and no part contains the separator |
| Text.JoinSplit | webhook.py:50 | joining the parts of a split with the separator gives back the original path |
| Text.SplitJoin | webhook.py:421 | splitting a join of separator-free parts gives back the parts, so the nested path rebuilt in the list handler is the path's tail |
| Text.ParseIntOfIntToString | webhook.py:428 | `int()` of an integer's decimal text gives back that integer, negative ones included |
| Text.ParseIntUnderscore | webhook.py:428 | `int()` accepts one underscore between two digits: "1_0" is 10 |
| Text.ParseIntUnderscoreMisplaced | webhook.py:428 | two underscores in a row, or one before the digits, are the `ValueError` case |
| Text.LeadingNumber | webhook.py:335 | the first-number search finds nothing exactly when the text has no digit |
| Graph.Lookup | webhook.py:56-58 | an attribute is present exactly when the value is an individual that has it |
| Graph.FindById | webhook.py:80 | searching by IRI finds the individual exactly when that id exists, and returns that individual |
| Graph.FindByValue | webhook.py:88 | a search by attribute value returns the first individual in search order holding that text, and none exactly when no individual holds it |
| PathResolver.GetNestedProperty | webhook.py:44-64 | the loop over the path segments computes the path resolution of the object |
| PathResolver.WalkAppend | webhook.py:51-58 | walking a path in two pieces is walking the first piece and then the second from where it stopped |
| PathResolver.AbsentSegmentGivesNone | webhook.py:56-57 | a missing attribute at any segment makes the whole read None |
| PathResolver.ListFollowsFirst | webhook.py:52-55 | an empty list reads as None; a list otherwise continues from its first element |
| PathResolver.FinalValue | webhook.py:59-61 | a final list gives its first element or None; a final scalar is kept unless it is None or `"NA"` |
| PathResolver.SentinelReadsAsNone | webhook.py:61 | a two-step path ending at an `"NA"` value reads as None |
| Pagination.Paginate | webhook.py:66-68 | the pages are just enough to hold every item, and there are none exactly when there are no items |
| Pagination.PageSizes | webhook.py:66-68 | every page but the last holds 3 items and the last holds 1 to 3 |
| Pagination.PageOfItem | webhook.py:66-68 | item k is on page k div 3 at position k mod 3 |
| Pagination.PaginateUnfold | webhook.py:66-68 | the first page is the first three items and the rest are the pages of the remainder |
| Pagination.FlattenPaginate | webhook.py:66-68 | concatenating the pages gives back the items in order |
| Pagination.PageIndex | webhook.py:432 | the cursor is clamped into the page range: a negative cursor becomes 0, one past the end becomes the last page, and one in range is kept |
| Replies.PageCursor | webhook.py:428 | a missing page reads as 0 and an integer page as itself |
| Replies.PageCursorText | webhook.py:428 | a text page reads as `int()` reads it: an integer's decimal text gives that integer, and "1_0" gives page 10 |
| Replies.NotFoundIsNotNoData | webhook.py:21-22 | a not-found message never equals a no-data message |
| Resolvers.GetCourse | webhook.py:73-80 | a course is found iff the name is valid input and its sanitised id names an individual, and then it is that individual |
| Resolvers.CourseNamesNormaliseAlike | webhook.py:76-80 | two valid names with the same sanitised id resolve to the same course |
| Resolvers.GetInstructor | webhook.py:82-88 | invalid input finds nobody; otherwise the first individual, in search order, whose `Instructors` is the stripped name, or nobody when none is |
| Resolvers.GetInstructorIsFirst | webhook.py:82-88 | a valid name finds exactly the first individual, in search order, whose `Instructors` is the stripped name |
| Resolvers.GetCourseMetadata | webhook.py:90-95 | the first `hasCourseMetadata` entry, or None when there is none |
| Resolvers.GetBasicInfo | webhook.py:97-102 | the first `hasBasicInfo` entry, or None when there is none |
| Resolvers.Memo.constructor | webhook.py:73 | a new cache is empty and consistent |
| Resolvers.Memo.Lookup | webhook.py:73-88 | a cached call answers exactly what the uncached resolver answers; a hit refreshes recency, a miss stores the answer, and a full cache of 100 or 50 entries first evicts the least recently used one |
| Listings.AttrValuesMembers | webhook.py:112 | the collected values are exactly the truthy attribute values of the records |
| Listings.AttrValuesTexts | webhook.py:112 | when some record has a truthy value and every truthy value is a string, the collected values are non-empty and all strings |
| Listings.Listing | webhook.py:114 | joining fails iff some value is not a string; otherwise the text is prefix, joined values and suffix |
| Listings.CourseTitlesMembers | webhook.py:221-224 | the collected titles are exactly the truthy `CourseCodeTitle` values of the courses' metadata, and there are none iff no course has one |
| Listings.CollectTitles | webhook.py:220-224 | the loop collects the course titles in order |
| GenericHandlers.CourseOf | webhook.py:405 | the handler's course is found iff `courseName` is valid and names an individual |
| GenericHandlers.HandleStandardQuery | webhook.py:404-411 | the reply is never an exception: not found for an invalid or unknown course, else the resolved value as text, or no data when it is falsy |
| GenericHandlers.TwoSegmentPath | webhook.py:44-64 | a two-segment path reads the attribute of the first related individual |
| GenericHandlers.StandardQueryOnMetadata | webhook.py:404-411 | a `hasCourseMetadata.X` query answers attribute X of the course metadata, or no data |
| GenericHandlers.StandardQueryOnBasicInfo | webhook.py:404-411 | a `hasBasicInfo.X` query answers attribute X of the basic info, or no data |
| GenericHandlers.CollectNested | webhook.py:420-425 | the loop collects the formatted, truthy nested values of the related records in order |
| GenericHandlers.ShowPage | webhook.py:428-436 | the page shown is the specification's page reply |
| GenericHandlers.HandleListQuery | webhook.py:413-436 | the handler computes the specified list reply, including its not-found, no-data and exception cases |
| GenericHandlers.PageReplyEmpty | webhook.py:430-431 | no items gives the no-data message whatever the cursor |
| GenericHandlers.PageReplyShows | webhook.py:432-436 | the reply is the clamped page's items, one per line, with the page footer only when there are more than 3 items |
| GenericHandlers.SinglePageIgnoresCursor | webhook.py:432-435 | with at most 3 items the cursor is irrelevant and no footer is added |
| GenericHandlers.CursorIsClamped | webhook.py:432 | a negative cursor shows page 0 and a cursor past the end shows the last page |
| GenericHandlers.PageReplyFaults | webhook.py:433 | the reply is an exception iff the shown page holds a non-string |
| GenericHandlers.SentinelNameFormatsToNil | webhook.py:455 | formatting an instructor record whose name is `"NA"` gives None |
| GenericHandlers.SentinelRecordIsKept | webhook.py:427 | the single-segment branch filters the record before formatting, so that None is kept |
| GenericHandlers.NilPageFaults | webhook.py:433 | joining a page that holds None raises |
| GenericHandlers.InstructorWithoutNameFaults | webhook.py:427-433 | an instructor list whose only record has name `"NA"` ends in an exception |
| CourseQueries.QueryInstructorForCourse | webhook.py:109-116 | unknown course gives not found; no truthy instructor name gives "No instructor listed." |
| CourseQueries.InstructorForCourseNames | webhook.py:112-114 | with string names, the reply is the names joined by commas followed by "teaches" and the course |
| CourseQueries.TeachesLine | webhook.py:114 | a listing of string names is the comma join followed by the "teaches" sentence |
| CourseQueries.ProgramOfAgreesWithPath | webhook.py:121-124 | the program of a course is the one the `belongsToTerm.belongsToProgram` path reads |
| CourseQueries.QueryProgramForCourse | webhook.py:119-126 | no course, or a course with no term or whose first term has no program, gives "Program not found."; otherwise "Taught in <programName> program." for the first term's first program |
| CourseQueries.FirstMatchingTerm | webhook.py:134-135 | the search loop returns the first term, in search order, that holds the course and whose first program's name contains the sanitised program, or none when no term does |
| CourseQueries.QueryTermForCourseProgram | webhook.py:129-137 | the handler computes the specified term reply |
| CourseQueries.FirstMatchingTermIs | webhook.py:134-135 | the first matching term is the one found |
| CourseQueries.TermReplyOutcomes | webhook.py:129-137 | no course or no matching term gives "Course not found in program."; otherwise the reply names the first matching term's suffix |
| CourseQueries.MetadataLine | webhook.py:168-173 | no course, no metadata or a falsy attribute gives the fallback; otherwise the attribute's value followed by the suffix |
| CourseQueries.QueryCourseCredits | webhook.py:168-173 | a truthy `CourseCredit` of the course metadata gives "<value> credits."; no course, no metadata or no credit gives "Credit info unavailable." |
| CourseQueries.QueryTotalSessions | webhook.py:231-236 | a truthy `TotalSessions` of the course metadata gives "<value> sessions."; no course, no metadata or no count gives "Total sessions info unavailable." |
| CourseQueries.MetadataLineAgreesWithPath | webhook.py:168-173 | a metadata line and the standard query on `hasCourseMetadata.<attr>` show the same real value (the line adds its suffix), both give up on a falsy one, and part on `"NA"`, which the line prints and the path reads as no data |
| CourseQueries.CourseCreditsAgreeWithPath | webhook.py:168-173 | the credits handler answers "<value> credits." while the table's standard query answers the bare value |
| CourseQueries.TotalSessionsAgreeWithPath | webhook.py:231-236 | the session-count handler shows "<value> sessions." where the `GetTotalSessions` standard query shows the bare value, and both give up on a missing count |
| CourseQueries.QueryReadingMaterials | webhook.py:187-194 | unknown course gives not found; no material gives "No reading materials listed."; otherwise "Required readings:" and the first five materials one per line, raising iff a shown material is not a string |
| CourseQueries.ReadingMaterialsListed | webhook.py:190 | 1 to 5 materials are shown, each truthy, not `"NA"`, and the `ReadingMaterial` of some session |
| CourseQueries.MaterialsInOrder | webhook.py:190 | the material of session k comes right after the materials of the sessions before it |
| CourseQueries.ReadingMaterialsInOrder | webhook.py:190-192 | a session's material is shown when fewer than five earlier sessions have one, at the position that counts them: the reply shows the first five materials in session order |
| CourseQueries.QueryConsultationContact | webhook.py:348-354 | with an instructor record whose first entry has contact details or hours, "Contact: <details>, Consultation Hours: <hours>"; otherwise, and only then, no data |
| CourseQueries.QueryInstructorOffice | webhook.py:357-363 | the first instructor's truthy office is shown, and otherwise the reply is no data |
| InstructorQueries.QueryContactInstructor | webhook.py:206-211 | the reply is never an exception; an instructor found with contact details gives "Contact: <details>, Consultation Hours: <hours>" |
| InstructorQueries.ContactInstructorOutcomes | webhook.py:206-211 | the reply is not found iff no instructor is found or the instructor has no contact details, and it always is for invalid input |
| InstructorQueries.ContactInstructorFindsFirst | webhook.py:206-211 | the contact line is that of the first individual in search order named by the trimmed name, when it has contact details |
| InstructorQueries.ContactRepliesAgree | webhook.py:209-210 | asking by instructor name and asking for the consultation details of a course whose first instructor record is that instructor give the same reply |
| InstructorQueries.QueryCoursesByInstructor | webhook.py:214-228 | the handler computes the specified reply |
| InstructorQueries.CoursesByInstructorOutcomes | webhook.py:214-228 | no instructor, or one without a `teachesCourse` attribute, is not found; an instructor none of whose courses (possibly none) has a title gives no data; otherwise the titles are listed, and each listed title is a taught course's title |
| InstructorQueries.ProgramTitlesSound | webhook.py:372-378 | every collected title belongs to a taught course of the requested program |
| InstructorQueries.ProgramTitlesComplete | webhook.py:372-378 | every taught course of the requested program with a title contributes it |
| InstructorQueries.ProgramTitlesMembers | webhook.py:372-378 | the collected titles are exactly the titles of the taught courses in the requested program |
| InstructorQueries.EmptyProgramKeepsEveryProgram | webhook.py:375 | an empty program parameter matches every course that has a program |
| InstructorQueries.CollectProgramTitles | webhook.py:372-378 | the loop collects the program-filtered titles in order |
| InstructorQueries.AnswerInProgram | webhook.py:369-383 | the reply is not found, no data, or the listing of the collected titles, as specified |
| InstructorQueries.QueryCoursesByInstructorInProgram | webhook.py:366-383 | the handler computes the specified reply |
| InstructorQueries.InProgramTitlesAreTaughtTitles | webhook.py:372-378 | the titles found for a program are among the instructor's titles |
| AssessmentQueries.QueryAssessmentTools | webhook.py:140-147 | unknown course gives not found; no truthy tool gives "No assessments listed." |
| AssessmentQueries.AssessmentToolsListed | webhook.py:143-145 | with some named tool and every named tool a string, the reply is "Assessment tools: " and the tools in assessment order; a value is listed iff it is some assessment's truthy tool |
| AssessmentQueries.AttrListingFaults | webhook.py:143-145 | the listing raises iff some record has a truthy non-string value |
| AssessmentQueries.AssessmentToolsFaults | webhook.py:140-147 | the tools reply is an exception iff some assessment has a truthy non-string tool |
| AssessmentQueries.ScanTools | webhook.py:154-163 | the scan stops at the first assessment whose tool matches case-insensitively, or at the first whose comparison raises, and is exhausted iff neither ever happens |
| AssessmentQueries.QueryAssessmentPercentage | webhook.py:150-165 | the handler computes the specified percentage reply |
| AssessmentQueries.ToolMatchIgnoresCase | webhook.py:155 | tool names that agree after lower-casing give the same scan |
| AssessmentQueries.DetailLines | webhook.py:270-275 | one line per assessment, line k being "<tool> (<percentage>%): <description>" for assessment k with the fallbacks for missing values |
| AssessmentQueries.QueryAssessmentDetailsFull | webhook.py:267-277 | the reply is never an exception, and without assessments it is "No assessment details available." |
| AssessmentQueries.AssessmentDetailsLines | webhook.py:276 | the reply is the header followed by the assessments' detail lines, one per line |
| AssessmentQueries.HighestNone | webhook.py:332-343 | no maximum exists iff no assessment has a number in its percentage |
| AssessmentQueries.HighestIsMaximum | webhook.py:340-341 | the kept weight is at least every parsed weight |
| AssessmentQueries.HighestIsFirst | webhook.py:340-341 | the kept tool is the first assessment carrying the maximum weight |
| AssessmentQueries.HighestIsFirstMaximum | webhook.py:331-343 | the kept entry is none iff nothing parses, and otherwise the first assessment with the largest weight |
| AssessmentQueries.HighestAssessment | webhook.py:331-341 | the loop raises iff some percentage is truthy but not a string, and otherwise keeps the specified maximum |
| AssessmentQueries.QueryHighestAssessmentTool | webhook.py:328-345 | the handler computes the specified reply |
| ProgramQueries.OfferedPrefix | webhook.py:296 | the listing's prefix starts with "C", so a listing never equals the not-found text, which starts with "N" |
| ProgramQueries.QueryCoursesInProgramTerm | webhook.py:280-297 | the handler computes the specified reply |
| ProgramQueries.ProgramTermIsFirstMatch | webhook.py:289 | the chosen term is the program's first term whose name contains the sanitised term |
| ProgramQueries.CoursesInProgramTermOutcomes | webhook.py:285-297 | the not-found text appears iff there is no term or no titled course in it; the listed titles are exactly the term courses' titles |
| ProgramQueries.RecordNamesMembers | webhook.py:309-311 | the names added are exactly the truthy `Instructors` values of the records |
| ProgramQueries.CoursesNamesMembers | webhook.py:308-311 | the names over several courses are exactly the union of each course's names |
| ProgramQueries.TermsNamesMembers | webhook.py:307-311 | the names over several terms are exactly the union of each term's names |
| ProgramQueries.ProgramInstructorsSound | webhook.py:307-311 | every collected name is named by an instructor record of a course of a term of the program |
| ProgramQueries.ProgramInstructorsComplete | webhook.py:307-311 | every truthy instructor name under the program is collected |
| ProgramQueries.ProgramInstructorsMembers | webhook.py:302-311 | the program's instructor set is exactly the names reachable through its terms and courses |
| ProgramQueries.AddRecordNames | webhook.py:309-311 | the loop adds the records' names to the set |
| ProgramQueries.AddCoursesNames | webhook.py:308-311 | the loop adds the courses' names to the set |
| ProgramQueries.AddTermsNames | webhook.py:307-311 | the loop adds the terms' names to the set |
| ProgramQueries.Enumerate | webhook.py:322 | the set is iterated in some order that lists each member once |
| ProgramQueries.EnumerationListing | webhook.py:322 | joining the set raises iff it holds a non-string, whatever the order |
| ProgramQueries.CollectInstructors | webhook.py:301-320 | the set built is the specified instructor set, by program when `program` is given and by term otherwise |
| ProgramQueries.QueryInstructorsInProgramTerm | webhook.py:300-323 | an empty set gives no data; otherwise the reply lists the set in some order; it raises iff a name is not a string |
| Summaries.StripSentinelShortens | webhook.py:183 | removing `"NA"` shortens any text that contains it |
| Summaries.DetailsContains | webhook.py:182 | the details text contains whatever one of its rendered fields contains |
| Summaries.CleanSummaryVerbatim | webhook.py:182-183 | with no `"NA"` field the intended summary is the details text unchanged |
| Summaries.Kept | webhook.py:182-183 | a field is kept iff it is one of the fields and its value is not `"NA"` |
| Summaries.CleanSummaryOmitsSentinelFields | webhook.py:182-183 | the intended summary is the details text of exactly the fields whose value is not `"NA"`, in order |
| Summaries.CleanSummaryDropsSentinel | webhook.py:182-183 | the intended summary leaves out an `"NA"` field whole, caption and separator included |
| Summaries.FoundSession | webhook.py:180 | the session found is the first session whose rendered number equals the parameter |
| Summaries.StripSentinelVerbatim | webhook.py:182-183 | the two deletions leave a summary unchanged iff it does not contain "NA" |
| Summaries.QuerySessionInfo | webhook.py:176-184 | no session gives "Session information not found."; otherwise the reply is the module, topic and materials line exactly when that line does not contain "NA", and is never longer than it |
| Summaries.SessionInfoMangles | webhook.py:182-183 | a topic containing "NA" is not reproduced faithfully |
| Summaries.DnaTopicIsCut | webhook.py:182-183 | the topic "DNA" is not reproduced faithfully |
| Summaries.QuerySessionInfoCorrected | webhook.py:176-184 | no session gives "Session information not found." |
| Summaries.SessionInfoCorrectedKeepsValues | webhook.py:182-183 | the corrected reply is the details text when no field is `"NA"`, and differs from the original whenever the topic contains "NA" |
| Summaries.QueryInstructorContact | webhook.py:197-203 | no instructor record gives "Instructor contact not found."; otherwise the reply is the contact, office and hours line exactly when that line does not contain "NA", and is never longer than it |
| Summaries.InstructorContactMangles | webhook.py:201-202 | an office containing "NA" is not reproduced faithfully |
| Summaries.QueryInstructorContactCorrected | webhook.py:197-203 | no instructor record gives "Instructor contact not found." |
| Summaries.InstructorContactCorrectedKeepsValues | webhook.py:201-202 | the corrected reply is the details text when no field is `"NA"`, and differs from the original whenever the office contains "NA" |
| SessionPlan.Insert | webhook.py:390 | insertion adds exactly one element |
| SessionPlan.SortByKey | webhook.py:390 | sorting permutes the sessions |
| SessionPlan.InsertSorted | webhook.py:390 | insertion keeps a sorted list sorted |
| SessionPlan.SortByKeySorted | webhook.py:390 | the result is ordered by session number |
| SessionPlan.InsertWithKey | webhook.py:390 | insertion puts the new element in front of its equal-key peers |
| SessionPlan.SortByKeyStable | webhook.py:390 | sessions with equal numbers keep their relative order, as Python's sort does |
| SessionPlan.SessionKeys | webhook.py:390-392 | keys exist iff every session number converts with `int()`, and then each key is that session's number |
| Graph.ToIntText | webhook.py:390-392 | a session number stored as text converts as `int()` reads it: an integer's decimal text gives that integer, and "1_0" gives 10 |
| SessionPlan.KeyedByMultiset | webhook.py:390 | a permutation of correctly keyed sessions is correctly keyed |
| SessionPlan.InsertItems | webhook.py:390 | insertion adds the element's session to the bag of sessions |
| SessionPlan.SortByKeyItems | webhook.py:390 | sorting keeps the bag of sessions |
| SessionPlan.ItemBagOfItems | webhook.py:390 | the bag of sessions is the multiset of the session sequence |
| SessionPlan.OrderedSessionsPermutes | webhook.py:389-392 | the ordered sessions are a permutation of the course's sessions, and unchanged when some number does not convert |
| SessionPlan.OrderedSessionsSorted | webhook.py:390 | when all numbers convert the sessions are in ascending number order, stably |
| SessionPlan.QueryFullSessionPlan | webhook.py:386-399 | the reply is never an exception, and without sessions it is no data |
| SessionPlan.TopicLinesEmpty | webhook.py:393-396 | at most one line per session, and no lines iff no session has a topic other than `"NA"` |
| SessionPlan.TopicLinesOfOrdered | webhook.py:389-396 | ordering does not change whether any topic line exists |
| SessionPlan.FullSessionPlanOutcomes | webhook.py:386-399 | the reply is no data iff the course has no sessions or none has a topic |
| SessionPlan.TopicsNotNoData | webhook.py:398 | a topics reply is never the no-data message |
| Dispatcher.WrappersMatchTable | webhook.py:239-264 | each wrapper `query_*` function is the standard query the table would run for its intent |
| Dispatcher.RunQuery | webhook.py:457-484 | a named handler gives the reply its specification defines; the instructors listing is any enumeration of its set |
| Dispatcher.Dispatch | webhook.py:441-485 | each table entry gives the reply its handler specification defines |
| Dispatcher.FirstPaged | webhook.py:500 | the page context is the first context whose parameters carry a page, or none when no context does |
| Dispatcher.RequestParams | webhook.py:495-502 | the handler sees the request parameters with a page always added |
| Dispatcher.Webhook | webhook.py:491-529 | an unknown intent gives "This query type is not supported yet." with no contexts; a known one gives its handler's reply, as the response for that reply |
| Dispatcher.RespondCarriesPage | webhook.py:505-529 | a text reply goes back with one pagination context of lifespan 5 that carries the page and the original query; an exception gives the apology with no context |
| Dispatcher.SessionPathReadsFirstSession | webhook.py:462 | the session-info path reads attribute `sessionNumber` of the course's first session |
| Dispatcher.SessionInfoEntry | webhook.py:462 | the table sends `GetSessionInfo` to a standard query under `hasSessionPlan.` |
| Dispatcher.SessionInfoReadsFirstSession | webhook.py:462 | the `GetSessionInfo` reply is the first session's attribute named by the session number, or no data when it has none |
| Dispatcher.CreditPathReadsMetadata | webhook.py:443 | the credit path reads `CourseCredit` of the course's first metadata |
| Dispatcher.CreditsEntry | webhook.py:443 | the table sends `GetCourseCredits` to the standard query on `hasCourseMetadata.CourseCredit` |
| Dispatcher.CreditsIntentAnswersMetadata | webhook.py:443 | the `GetCourseCredits` reply is the bare credit value, or no data |
| Dispatcher.ListIntentsUseContextPage | webhook.py:499-502 | a list intent shows the page that the first paging context names |

## Left out

- The Flask app, CORS, JSON parsing and logging are not modelled. A request arrives as a `Request` value and leaves as a `Response` value.
- Loading the ontology and owlready2's `search` are not modelled. The graph is a parameter, with a fixed search order.
- Request parameters are text (`Params.fields` maps names to strings). A non-string `courseName` or `instructorName`, which in the source raises in `validate_input` or in the cache's hashing and ends in the apology, cannot be expressed; a numeric `sessionNumber` is taken to arrive as the text `str()` would print for it (such as "3.0").
- Character classes are ASCII. Python's `\w`, `\s`, `strip()` and `lower()` are Unicode-aware, so a name such as "Café" passes `validate_input` in the source but is invalid in the model and gets the not-found reply.
- Text.ParseInt: only ASCII digits and ASCII whitespace are read. Python's `int()` also accepts other Unicode decimal digits (such as "٣") and Unicode whitespace; the model treats those texts as the `ValueError` case.
- Replies.PageCursor: a text page written with non-ASCII digits is a fault here and a page in the source, as the `Text.ParseInt` line says.
- SessionPlan.SessionKeys: a session number written with non-ASCII digits gives no keys here, so the stored order is kept where the source sorts, as the `Text.ParseInt` line says.
- Graph.First and Graph.Items: a relation holding a single string or individual instead of a list reads as an empty list. In the source, `[0]` on a string gives its first character, while `[0]` on an individual, or a `for` loop over one, raises TypeError, which the handlers do not catch. A relation that is present but None (an unset functional property) also reads as an empty list here, while in the source `for … in None` and `None[0]` raise TypeError (webhook.py:112, 180, 190, 291, 372, 422), which the endpoint turns into its apology. owlready2's list-valued properties never hold such values.
- `str()` of an individual is modelled as its bare name. owlready2 prints it prefixed by the ontology's name (such as "university_courses.cs101"), so replies that print an individual differ by that prefix.
- Reading a property the schema does not define raises AttributeError in the source (such as `ins.Instructors` or `s.Session` on a record lacking them); the model reads every absent property as None. Only `hasattr` tests and `get_nested_property` see absence as the source does.
- Exceptions other than those the model can name are not modelled: a malformed request body and ontology errors. The model covers joining a non-string, `int()` on a bad page, `.lower()` on a non-string and `int()` of a session number.
- The float that `%` and `float()` print in the highest-weight reply is not modelled. It is a parameter (`showPercent`), and the number regex gives an exact `real`.
- `original_query` is kept as the parameter value, not as its `json.dumps` text.
- Dialogflow can deliver a page as a float, a JSON `null` or a boolean. The model carries integer and text pages only: in the source `int()` truncates a float, raises on `None` (the apology) and reads `True` as 1 and `False` as 0 (webhook.py:428).
- The seven unregistered handlers named in the introduction are unreachable from `/webhook`. The model keeps them as functions and states their replies, but `Dispatcher.Webhook` never calls them, so their defects below are latent.
- The `invalid_input` template is never used by the source, so it is not modelled.
- Resolvers.Memo.Lookup: each call is modelled as transparent. The memo class keeps the LRU bookkeeping, but the handlers call the pure resolvers directly, since the cache never changes an answer.
- ProgramQueries.QueryInstructorsInProgramTerm: Python's set iteration order is not modelled. The reply is stated for every enumeration of the set, not for one particular order.
- Dispatcher.Webhook: the output context's name is stored as a plain string. Its `${projectId}` and `${sessionId}` placeholders are not expanded, as in the source.
- Three behaviours follow the code where a description of the program differs:
  - the `GetCourseCredits` intent answers the bare credit value through the standard query, not "N credits.";
  - the list handler's single-segment branch filters each record before formatting it, so a record that formats to None reaches the join and raises;
  - `GetSessionInfo` reads the attribute named by the session number on the course's first session; it does not search for that session.

## Findings

| source | as written | input that shows it | evidently intended | confidence | as-written member | corrected member |
|---|---|---|---|---|---|---|
| webhook.py:182-183 | the session summary removes every "NA" substring | a session whose topic is "DNA" is shown as "Topic: DMaterials: …": the first `replace` deletes "NA, " and so takes the separator after the topic too; the defect is latent, because the table never calls `query_session_info` (`GetSessionInfo`, webhook.py:462, is a standard query) and only a direct call shows it | leave out every field whose value is exactly "NA", caption and separator included, and print every other value as it is | not executed | Summaries.DnaTopicIsCut | Summaries.SessionInfoCorrectedKeepsValues |
| webhook.py:201-202 | the contact summary removes every "NA" substring | an instructor whose office contains "NA" (such as "NAB 204") is shown with that text cut out; the defect is latent, because the table never calls `query_instructor_contact` (`GetInstructorContact`, webhook.py:456, is a standard query) and only a direct call shows it | leave out every field whose value is exactly "NA", caption and separator included, and print every other value as it is | not executed | Summaries.InstructorContactMangles | Summaries.InstructorContactCorrectedKeepsValues |
