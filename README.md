# Study planner and in-memory storage, modelled in Dafny

This project models the core of a study-assistant backend in Dafny.

**The daily study-plan engine** (`StudyPlanner` in `backend/services/study_planner.py`) turns units, assignments, a learning pace and a number of available hours into one day's plan. It works in these steps:

- it selects the assignments due within a week;
- it builds candidate topics, one per urgent assignment and up to two per unfinished unit, each with a clamped time estimate and a priority tier;
- it sorts the candidates stably by tier and deadline;
- it fills the day's minutes greedily, shrinking the first topic that does not fit;
- it places breaks across the day;
- it can later advise what to do with the topics still open.

**The storage layer** (`InMemoryStorage` in `backend/models.py`) is a set of id-keyed dicts. They share one id counter and support create, get, update and delete, with cascading deletes.

Modules, one per component:

- `Records`: the dataclasses, plus the topic and break entries of a plan.
- `Urgency`: the urgent-assignment filter and the urgency tier.
- `Candidates`: estimates, topic names, unit tiers, candidate building and prioritizing.
- `Sorting`: Python's stable sort, given as an insertion sort, with a proof that every stable sort gives the same result.
- `Allocator`: the greedy allocation of minutes.
- `Breaks`: the break schedule.
- `Planner`: plan assembly.
- `Advisor`: plan adjustments.
- `Tables` and `Storage`: the dicts and the storage object.
- `Arith` and `Text`: Python's `int()` truncation, `min`/`max` clamping, `str.lower`/`str.upper` and `str(int)`.

How the model represents the source:

- Each loop of the source is a method with invariants. Each method is proved equal to a specification function, and the properties are proved about that function.
- Timestamps are whole seconds since 1970-01-01. Calendar days and weekdays come from floor division.
- `datetime.now()` is read at two call sites, once per urgent assignment at line 86 and once per summary at line 252 of `backend/services/study_planner.py`. Every reading of the clock in one planning run is taken as the single parameter `now`.
- The storage object is a class. Each dict is a table that keeps the insertion order Python iterates in.

Where the code differs from the design, the model follows the code:

- Minutes are `int(hours * 60)`, which truncates rather than rounds.
- There is no check on the pace or the hours. A pace of 0 fails only where a topic is built, and so does a template lookup with a topic number of -6 or less. The model returns these failures as `PlanError` values. It does not require a positive pace.
- Urgency tiers and `days_until_due` are measured from `now`, not from the plan date.
- Exactly 20 remaining minutes give `wrap_up`, not `review`, because the test at line 287 is `remaining_time > 20`. `AdjustmentCases` states this boundary.

## Model

| member | source | states |
|---|---|---|
| `Urgency.GetUrgentAssignments` | backend/services/study_planner.py:65-78 | Keeps exactly the assignments not completed with `date <= deadline <= date + 7 days`, each as often as in the input. The result is ordered by deadline, and assignments with equal deadlines keep their input order. |
| `Urgency.SortedUrgentIsExact` | backend/services/study_planner.py:65-78 | The sorted urgent list has the same membership, multiplicities, order and stability as above. |
| `Urgency.FilterUrgentCounts` | backend/services/study_planner.py:70-74 | The collecting loop keeps an assignment exactly when it is urgent. |
| `Urgency.DaysUntil` | backend/services/study_planner.py:86 | `(deadline - now).days` is the floored number of whole days: `days*86400 <= deadline - now < (days+1)*86400`. It is negative exactly for a deadline already past. |
| `Urgency.UrgencyTier` | backend/services/study_planner.py:86-87 | "high" within 2 floored days, "medium" within 5, "low" after that. Its contract in seconds is `UrgencyTierBySeconds`. |
| `Urgency.UrgencyTierBySeconds` | backend/services/study_planner.py:86-87 | The tier is "high" iff the deadline is less than 3 days after `now`. It is "medium" iff the deadline is 3 to less than 6 days away, and "low" otherwise. |
| `Candidates.EstimateAssignmentTime` | backend/services/study_planner.py:178-189 | The assignment estimate always lies in [30, 180]. |
| `Candidates.EstimateStudyTime` | backend/services/study_planner.py:191-197 | The study estimate always lies in [20, 90]. |
| `Candidates.EstimatesAntitoneInPace` | backend/services/study_planner.py:186-196 | For positive paces, a slower pace never gets a shorter estimate. |
| `Candidates.EstimateUnclamped` | backend/services/study_planner.py:186-189 | Inside the clamp bounds, the estimate is exactly `base*80/pace`. |
| `Candidates.EstimateExamples` | backend/services/study_planner.py:178-197 | Example on fixed inputs only, not a general contract. The clamp saturates: pace 10 gives 180 and 90 minutes, pace 1000 or a negative pace gives 30 and 20. Pace 50 gives 96 (144 for a "cat") and pace 100 a 36-minute study topic. |
| `Candidates.TopicName` | backend/services/study_planner.py:199-222 | `_generate_topic_name`: the template entry with Python's negative indexing, `IndexError` below it, the generic name past it or without a template. Its contract is in `TopicNameCases`, `TemplateLookupIgnoresCase` and `TopicNameExamples`. |
| `Candidates.TemplateLookupIgnoresCase` | backend/services/study_planner.py:216-218 | Two unit names that lower-case to the same subject get the same topic names within the template list, and upper-casing a name first changes no lookup. |
| `Candidates.TopicNameExamples` | backend/services/study_planner.py:199-222 | Example on fixed inputs only, not a general contract. A unit named "ANATOMY" gets "Cardiovascular System" for topic 1, "Digestive System" for topic 0 (index -1), "ANATOMY - Topic 7" for topic 7, and `IndexError` for topic -6. |
| `Candidates.TopicNameCases` | backend/services/study_planner.py:199-222 | For topic numbers 1 to 6 of a templated unit (name compared lower-cased), the name is the template entry n. For numbers -5 to 0 it is entry n + 5, because Python indexes `topics[n - 1]` from the end. Above 6, or for a unit without templates at any number, it is "<name> - Topic <n>". The lookup fails only for a templated unit and a number of -6 or less. |
| `Candidates.UnitPriority` | backend/services/study_planner.py:224-233 | `_calculate_priority` on the exact completion rate. Its contract is in `UnitPriorityInIntegers`. |
| `Candidates.UnitPriorityInIntegers` | backend/services/study_planner.py:224-233 | The tier is "high" iff `total <= 0` or `10*completed < 3*total`. It is "medium" iff `10*completed` is from `3*total` up to below `7*total`, and "low" otherwise. |
| `Candidates.AssignmentTopics` | backend/services/study_planner.py:85-98 | Produces one topic per urgent assignment. |
| `Candidates.TopicsForUnitShape` | backend/services/study_planner.py:106-118 | A unit's topics are numbered from `completed+1`. Each has the unit's name, tier and id, no deadline, the study estimate, and is not completed. |
| `Candidates.UnitTopicsSucceedIff` | backend/services/study_planner.py:101-118 | A unit's topics are built without an exception exactly when no topics are left, or the pace is non-zero and the name lookups stay in range. |
| `Candidates.UnitsTopicsSucceedIff` | backend/services/study_planner.py:101-118 | The study topics of all units build iff every unit's do. |
| `Candidates.CandidatesSucceedIff` | backend/services/study_planner.py:80-118 | Candidate building fails exactly on a zero pace where a topic must be built, or on an out-of-range template index. With a non-zero pace and nonnegative progress counts it always succeeds. |
| `Candidates.UnitsTopicsShape` | backend/services/study_planner.py:101-118 | Each unit contributes `min(total-completed, 2)` topics (0 when nothing is left). All of them are study topics with no deadline and the study estimate. |
| `Candidates.CandidatesShape` | backend/services/study_planner.py:80-118 | The candidates are the assignment topics in order, with their deadlines and estimates in [30, 180], followed by the unit topics, with no deadline and estimates in [20, 90]. |
| `Candidates.AssignmentTopicsAt` | backend/services/study_planner.py:85-98 | The i-th assignment topic is built from the i-th urgent assignment. |
| `Candidates.Prioritized` | backend/services/study_planner.py:80-127 | The candidates sorted stably by `TopicKey`, or the exception raised while building them. Its contract is in `PrioritizedOrder` and `CandidatesSucceedIff`. |
| `Candidates.PrioritizedOrder` | backend/services/study_planner.py:120-125 | The prioritized list is a permutation of the candidates. It is ordered by tier (high, medium, low), then by deadline with no deadline last. Topics with equal keys keep build order. |
| `Candidates.UrgentTopics` | backend/services/study_planner.py:84-98 | The assignment loop returns one topic per urgent assignment, in order. With a zero pace and at least one urgent assignment it returns the division-by-zero error. |
| `Candidates.UnitStudyTopics` | backend/services/study_planner.py:102-118 | The inner per-unit loop returns exactly the unit's topics or the first exception. |
| `Candidates.AllUnitsTopics` | backend/services/study_planner.py:101-118 | The unit loop returns the study topics of every unit, unit by unit, or the first exception raised. |
| `Candidates.PrioritizeTopics` | backend/services/study_planner.py:80-127 | The loops and sort return exactly the stably sorted candidates, or the exception raised while building them. |
| `Sorting.SortByIsStableSort` | backend/services/study_planner.py:122-125 | The sort's result is sorted by key and a permutation of its input. Elements with equal keys keep their relative order. |
| `Sorting.StableSortIsUnique` | backend/services/study_planner.py:122-125 | Any sorted permutation that keeps equal keys in input order equals this sort's result. So the model agrees with Python's stable `list.sort`. |
| `Sorting.KeyLeTotalOrder` | backend/services/study_planner.py:122-125 | The (rank, deadline-or-max) key order is total and transitive. |
| `Allocator.Allocation` | backend/services/study_planner.py:129-149 | The fitting prefix of the topics, then the first non-fitting one shrunk to the remaining minutes when at least 20 remain. Its contract is in `AllocationTakesPrefix`, `AllocationWithinBudget`, `AllocationKeepsOrder` and `AllocationAllFit`. |
| `Allocator.FitCount` | backend/services/study_planner.py:135-139 | Counts the leading topics whose running totals all stay within the budget. The next topic, if any, would overflow it. |
| `Allocator.AllocateTimeSlots` | backend/services/study_planner.py:129-149 | The greedy loop returns exactly `Allocation(topics, int(hours*60))`. |
| `Allocator.AllocationTakesPrefix` | backend/services/study_planner.py:135-147 | The result is the fitting prefix. At most the first non-fitting topic follows it, shrunk to exactly the remaining minutes, which are at least 20 and below its estimate. Nothing after it is taken. |
| `Allocator.AllocationWithinBudget` | backend/services/study_planner.py:129-149 | The allocated minutes never exceed a nonnegative budget. |
| `Allocator.AllocationKeepsOrder` | backend/services/study_planner.py:129-149 | The allocation keeps the priority order of its input. |
| `Allocator.AllocationAllFit` | backend/services/study_planner.py:135-138 | With nonnegative estimates whose total fits the budget, every topic is taken unchanged. |
| `Allocator.RunningMonotone` | backend/services/study_planner.py:138 | With nonnegative estimates, the running total only grows. |
| `Allocator.AllocationExample` | backend/services/study_planner.py:140-145 | Example on fixed inputs only, not a general contract. With 100 minutes, topics of 80 and 30 minutes give 80 and 20. |
| `Breaks.BreakSuggestion` | backend/services/study_planner.py:235-242 | A short walk up to 60 minutes, fresh air up to 120, a longer rest after that. Its use is stated in `BreaksFromShape` and `FourHourDay`. |
| `Breaks.BreakSchedule` | backend/services/study_planner.py:151-176 | The breaks of a day of `m` minutes, the first at 50. Its contract is in `BreakScheduleShape` and `BreaksFromShape`. |
| `Breaks.GenerateBreakSchedule` | backend/services/study_planner.py:151-176 | The while loop returns exactly `BreakSchedule(int(hours*60))`. |
| `Breaks.BreaksFromShape` | backend/services/study_planner.py:156-174 | The breaks start at the first offset and lie below the end of the day. Each next offset is the previous one plus 50 plus its duration, and the schedule stops at the first offset at or past the end. Each break has duration 15 (30 from offset 120) and the suggestion for its offset. |
| `Breaks.BreakScheduleShape` | backend/services/study_planner.py:151-176 | There are no breaks iff the day lasts 50 minutes or less. Otherwise the first break is at 50 (15 minutes, "short walk"), every break falls inside the day, and the offsets increase by at least 65. |
| `Breaks.FourHourDay` | backend/services/study_planner.py:235-242 | Example on fixed inputs only, not a general contract. A 240-minute day has breaks at 50, 115 and 180, with the three suggestion texts in turn. |
| `Planner.EffectiveHours` | backend/services/study_planner.py:26-32 | `min(hours * pace/50, 8)` for real-valued available hours, times 0.7 on weekdays 5 and 6. Its contract is in `EffectiveHoursBounds` and `WeekendReduction`. |
| `Planner.DailyPlanFor` | backend/services/study_planner.py:17-63 | The plan `generate_daily_plan` returns, or the prioritizing error. It is `PlanForHours` applied to the effective hours. Its contract is in `PlanSucceedsIff`, `PlanFitsDay` and `PlanUrgentAssignments`. |
| `Planner.GenerateDailyPlan` | backend/services/study_planner.py:17-63 | Plan assembly returns exactly `DailyPlanFor(...)`, or the prioritizing error. |
| `Planner.BuildPlan` | backend/services/study_planner.py:34-63 | Once the day's hours are fixed, the steps return exactly `PlanForHours(...)`: urgent assignments, prioritized topics, the allocation and the breaks of `int(hours * 60)` minutes, or the prioritizing error. |
| `Planner.EffectiveHoursBounds` | backend/services/study_planner.py:26-32 | The effective hours are at most 8, and at most 5.6 on weekends. They are nonnegative for nonnegative inputs. Below the cap on a weekday they equal `hours*pace/50`. |
| `Planner.WeekendReduction` | backend/services/study_planner.py:31-32 | On Saturday and Sunday the hours are 0.7 times the weekday hours. |
| `Planner.PlanSucceedsIff` | backend/services/study_planner.py:25-63 | A plan is produced exactly when candidate building raises nothing. A positive pace with nonnegative progress counts always gives a plan. |
| `Planner.PlanFitsDay` | backend/services/study_planner.py:40-56 | The total is between 0 and 480 minutes and the scheduled minutes stay within it. The scheduled topics are the leading prioritized topics, in order, each with at most its estimate. Every break falls inside the day, nothing is completed, and the actual time is 0. |
| `Planner.PlanForHoursFits` | backend/services/study_planner.py:40-56 | The shape of `PlanFitsDay` holds for any hours between 0 and the daily cap of 8. |
| `Planner.ScheduleFits` | backend/services/study_planner.py:129-176 | For a nonnegative minute budget and a sorted topic list, the allocation stays within the budget. It keeps the leading topics in order, each at most its estimate, and every break falls before the end. |
| `Planner.PlanUrgentAssignments` | backend/services/study_planner.py:53 | Entry i of the plan's urgent list summarises entry i of the urgent assignments. Each urgent assignment appears there as often as among the assignments, and no other does. Each entry carries the floored whole days until its deadline. Entries are ordered by deadline, so the day counts never decrease. |
| `Planner.UrgentOfShape` | backend/services/study_planner.py:35 | The plan's urgent list holds each urgent assignment as often as it occurs and no other, ordered by deadline. |
| `Planner.DaysUntilMonotone` | backend/services/study_planner.py:252 | A later deadline never has fewer days until due. |
| `Advisor.SuggestPlanAdjustments` | backend/services/study_planner.py:266-303 | `suggest_plan_adjustments` on the completed titles. Its contract is in `AdjustmentCases` and `AdjustmentNamesFirstTopics`. |
| `Advisor.Incomplete` | backend/services/study_planner.py:272-275 | The incomplete list is never longer than the plan. |
| `Advisor.IncompleteConcat` | backend/services/study_planner.py:272-275 | The incomplete topics keep plan order: those of two plan parts are the first part's followed by the second's. With `IncompleteCounts` this fixes the list, so the second postponed title in `wrap_up` is the second open topic in plan order. |
| `Advisor.IncompleteCounts` | backend/services/study_planner.py:272-275 | A topic stays exactly when its title matches no completed title, and it keeps its multiplicity. |
| `Advisor.IncompleteMembers` | backend/services/study_planner.py:272-275 | A topic is incomplete iff it is scheduled and its title is not among the completed titles. |
| `Advisor.IncompleteHead` | backend/services/study_planner.py:272-285 | The first incomplete topic is the first scheduled topic that is not completed. |
| `Advisor.AdjustmentCases` | backend/services/study_planner.py:277-303 | "All completed" is returned iff every scheduled title is completed. Otherwise the count is exactly the number of incomplete topics, between 1 and the plan length, and one suggestion is given: `continue` iff more than 60 minutes remain, `review` iff 21 to 60 remain, and `wrap_up` iff 20 or fewer remain. |
| `Advisor.AdjustmentNamesFirstTopics` | backend/services/study_planner.py:282-297 | `wrap_up` postpones the titles of the first two incomplete topics (one if only one is left), and `continue` names the first. |
| `Arith.TruncDiv` | backend/services/study_planner.py:186-187 | `int(a*(b/c))` truncates toward zero: it is floor division for nonnegative operands and never positive for operands of opposite sign. |
| `Arith.Trunc` | backend/services/study_planner.py:131 | `int(x)` lies between 0 and x and is within 1 of x. |
| `Arith.Clamp` | backend/services/study_planner.py:189 | `max(lo, min(x, hi))` lies in [lo, hi]. It is x when x is inside, lo when x is below and hi when x is above. |
| `Text.Lower` | backend/services/study_planner.py:216 | Keeps the length, leaves no capital 'A'..'Z', and keeps every character that is not a capital. |
| `Text.CaseMappingIgnoresCase` | backend/services/study_planner.py:216 | Lowering twice, or upper-casing then lowering, gives the same as lowering once; the same holds for upper-casing. |
| `Text.Upper` | backend/services/study_planner.py:93 | Keeps the length, leaves no small letter 'a'..'z', and keeps every character that is not a small letter. |
| `Text.NatToString` | backend/services/study_planner.py:222 | The decimal digits of n, with no leading zero, denote n. |
| `Text.IntToString` | backend/services/study_planner.py:222 | `str(n)` is non-empty, starts with '-' iff n is negative, and the digits after the sign denote the absolute value of n. |
| `Records.WeekdayCalendar` | backend/services/study_planner.py:31 | 1970-01-01 is a Thursday (3). Each next day is the next weekday, Sunday (6) wraps to Monday (0), a week later is the same weekday, and 2024-01-06 is a Saturday (5). |
| `Tables.ValuesMembers` | backend/models.py:149-150 | `list(d.values())` holds exactly the stored records. |
| `Tables.PutSpec` | backend/models.py:157 | Storing keeps the dict well formed and changes only that row. A new key is appended to the iteration order; an existing key keeps its place. |
| `Tables.RemoveSpec` | backend/models.py:171 | `del d[k]` keeps the dict well formed and drops exactly that row. |
| `Tables.RemoveAllSpec` | backend/models.py:174-175 | Deleting a list of keys drops exactly their rows. |
| `Tables.WithoutDistinct` | backend/models.py:171 | Removing a key keeps the iteration order free of duplicates. |
| `Storage.NextIdIsUnused` | backend/models.py:96-99 | The counter's value is a key no table uses yet, so ids are fresh across all tables. |
| `Storage.InMemoryStorage.constructor` | backend/models.py:83-94 | After construction the storage is valid and holds exactly the sample data. |
| `Storage.SampleStateContents` | backend/models.py:101-122 | Sample data: user 1 "mitchell"; units 2, 3 and 4 (Anatomy 3/5, Immunology 1/5, Physiology 2/5, with their colours and icons); all other tables empty; counter 5. |
| `Storage.SampleUnitsTable` | backend/models.py:114-122 | The three sample units are stored under ids 2, 3 and 4, in that order. |
| `Storage.InMemoryStorage.NextId` | backend/models.py:96-99 | Returns the counter and increments it by one. Nothing else changes. |
| `Storage.InMemoryStorage.InitializeSampleData` | backend/models.py:101-122 | From empty tables and counter 1, the loop produces exactly the sample state. |
| `Storage.InMemoryStorage.GetUnits` | backend/models.py:149-150 | One entry per key, and exactly the stored units. Their order is the insertion order that `PutSpec` states. |
| `Storage.InMemoryStorage.GetUnit` | backend/models.py:152-153 | The unit stored under the id, or None iff there is none. |
| `Storage.InMemoryStorage.CreateUnit` | backend/models.py:155-158 | Stores the unit under the fresh counter value, which no table used, and appends it. Nothing else changes except the counter. |
| `Storage.InMemoryStorage.UpdateUnit` | backend/models.py:160-167 | An absent id gives None and no change. Otherwise only that unit changes, by its keyword arguments in order, and its position stays. |
| `Storage.InMemoryStorage.DeleteUnit` | backend/models.py:169-177 | Returns True iff the unit was present. It removes the unit and exactly the documents of that unit. Notes and the rest are untouched. |
| `Storage.UnitCascade` | backend/models.py:169-177 | The state after a unit deletion is valid, and its documents are exactly those not of that unit. |
| `Storage.InMemoryStorage.GetDocuments` | backend/models.py:180-184 | Returns all documents, or the order-keeping filter of them by unit, holding exactly the documents of that unit, each as often as stored. |
| `Storage.InMemoryStorage.GetDocument` | backend/models.py:186-187 | The document stored under the id, or None iff there is none. |
| `Storage.InMemoryStorage.CreateDocument` | backend/models.py:189-192 | Fresh id, appended, nothing else changed. |
| `Storage.InMemoryStorage.UpdateDocument` | backend/models.py:194-201 | An absent id gives None and no change. Otherwise only that document changes. |
| `Storage.InMemoryStorage.DeleteDocument` | backend/models.py:203-211 | Returns True iff the document was present. It removes the document and exactly its notes. |
| `Storage.DocumentCascade` | backend/models.py:203-211 | The state after a document deletion is valid, and its notes are exactly those not attached to it. |
| `Storage.InMemoryStorage.GetNotes` | backend/models.py:214-218 | Returns all notes, or the order-keeping filter of them by document, holding exactly the notes of that document, each as often as stored. |
| `Storage.InMemoryStorage.GetNote` | backend/models.py:220-221 | The note stored under the id, or None iff there is none. |
| `Storage.InMemoryStorage.CreateNote` | backend/models.py:223-226 | Fresh id, appended, nothing else changed. |
| `Storage.InMemoryStorage.UpdateNote` | backend/models.py:228-236 | An absent id gives None and no change. Otherwise the keyword arguments are applied, then `updatedAt := now`. |
| `Storage.InMemoryStorage.DeleteNote` | backend/models.py:238-239 | Returns True iff the note was present. Afterwards it is absent. |
| `Storage.InMemoryStorage.GetAssignments` | backend/models.py:242-243 | One entry per key, and exactly the stored assignments. |
| `Storage.InMemoryStorage.GetAssignment` | backend/models.py:245-246 | The assignment stored under the id, or None iff there is none. |
| `Storage.InMemoryStorage.CreateAssignment` | backend/models.py:248-251 | Fresh id, appended, nothing else changed. |
| `Storage.InMemoryStorage.UpdateAssignment` | backend/models.py:253-260 | An absent id gives None and no change. Otherwise only that assignment changes. |
| `Storage.InMemoryStorage.DeleteAssignment` | backend/models.py:262-263 | Returns True iff the assignment was present. Afterwards it is absent. |
| `Storage.InMemoryStorage.GetStudyPlans` | backend/models.py:266-267 | One entry per key, and exactly the stored plans. |
| `Storage.InMemoryStorage.GetStudyPlanByDate` | backend/models.py:269-274 | The loop returns exactly the first plan in table order on that calendar day. |
| `Storage.FirstOnDaySpec` | backend/models.py:269-274 | None iff no plan is on that day. Otherwise it gives a plan on that day with no earlier one. |
| `Storage.InMemoryStorage.CreateStudyPlan` | backend/models.py:276-279 | Fresh id, appended, nothing else changed. |
| `Storage.InMemoryStorage.UpdateStudyPlan` | backend/models.py:281-288 | An absent id gives None and no change. Otherwise only that plan changes. |
| `Storage.SetAttrs` | backend/models.py:163-165 | The `setattr` loop applies the keyword arguments in order. |
| `Storage.ApplyFieldsKeeps` | backend/models.py:163-165 | A field that no keyword argument sets keeps its value. |
| `Storage.ApplyFieldsLastWins` | backend/models.py:163-165 | A field ends with the value of the last keyword argument that sets it. |
| `Storage.UnitUpdateKeepsProgress` | backend/models.py:160-167 | Keywords that set neither progress counter (unknown keys included) leave both counters unchanged. |
| `Storage.Filter` | backend/models.py:183 | A comprehension keeps exactly the elements satisfying its condition. |
| `Storage.FilterCounts` | backend/models.py:183 | A comprehension keeps each element satisfying its condition as often as it occurs, and no other. |
| `Storage.FilterConcat` | backend/models.py:183 | A comprehension keeps the relative order: filtering a concatenation filters each part. |
| `Storage.KeysWhere` | backend/models.py:173 | The keys collected for a cascade are exactly the keys whose record matches, in table order; it gives both the documents of a unit (line 173) and the notes of a document (line 207). |

## Left out

- The HTTP routes (`backend/routes/*.py`), the AI service, the document processor, the application bootstrap and the desktop launcher are not part of this model. They are request parsing, network calls, file I/O and process management.
- User and AI-chat operations (`get_user`, `get_user_by_username`, `create_user`, `update_user`, `get_ai_chats`, `get_ai_chat_by_session`, `create_ai_chat`, `update_ai_chat`) are left out. They are not part of the modelled core. Their tables are kept as fields, so the invariant and the shared counter still cover them. Only the sample user is created.
- `StudyPlanner.update_progress` is left out. It only logs and returns True.
- Logging is left out. So are the wrapping of exceptions into a new `Exception` and the `{'error': ...}` answer of `suggest_plan_adjustments`. The model returns the underlying error kind instead. The advisor raises nothing on typed inputs.
- Planner.EffectiveHours: the available hours are a real number, so a fractional value such as 2.5 is covered, but the learning pace is a whole number, as the annotation at `backend/services/study_planner.py:21` says. A fractional pace from the request body is not modelled, because it would also turn `80 / pace` in the estimates into float division.
- Floating point is exact `real` arithmetic here. IEEE rounding at exact boundaries (`pace/50.0`, `* 0.7`, `int(hours*60)`, `80/pace`) is not reproduced. `int(base*(80/pace))` is the truncated integer quotient `base*80/pace`.
- Timestamps are whole seconds. Sub-second precision and time zones are not modelled. `deadline.isoformat()` is represented by the timestamp itself.
- Every reading of `datetime.now()` in one planning run (per urgent assignment at line 86, per summary at line 252) is the single parameter `now`; clock drift between readings is not modelled. Every `created_at` default is likewise a value the caller supplies.
- `Text.Lower`: lower-cases ASCII letters only. For the template lookup this is exact, because the only non-ASCII character that lower-cases to an ASCII letter is the Kelvin sign, which lowers to "k". No template key contains "k".
- `Text.Upper`: upper-cases ASCII letters only. The assignment type is shown upper-cased in the plan, and non-ASCII case mapping of that text is not modelled.
- Dataclass constructors with defaults are replaced by complete records from the caller. `create_*` overwrites the id with the fresh one, so passing an `id` keyword, which raises a `TypeError` in the source, is not modelled.
- Keyword arguments of `update_*` are typed: one constructor per dataclass field plus one for unknown keys, which `hasattr` filters out. The model does not cover a value of the wrong type or keys that name non-field attributes, such as methods.
- Records are values. Aliasing between a returned record and the stored one is not modelled. Neither is the in-place change of `topic['estimated_time']` in the allocator, which also alters the caller's prioritized list. The allocator returns the shrunk copy instead.
- The `datetime.max` stand-in for a missing deadline is an explicit "no deadline sorts last" case. It differs only for a real deadline equal to `datetime.max`.
- Only the `title` of each completed topic passed to `suggest_plan_adjustments` is modelled, because that is the only key the source reads.
