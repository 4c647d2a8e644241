# Email-to-Telegram notification formatter, modelled in Dafny

The bot polls a mailbox and forwards each new email to a Telegram channel.
Its core is `format_telegram_message(subject, body)`. It turns one email into
the HTML text of one Telegram message:

- The subject is tested for four phrases, in a fixed order: "Content
  released", "Live Session Details", "Assignment Deadline Reminder" and
  "Revision sessions". The first phrase found selects a kind.
- Each kind runs one regular expression over the body:
  - `re.search` with DOTALL for the two letter-shaped emails (week, course,
    content);
  - `re.search` for the live-session block (course, link, date, time);
  - `re.findall` for the revision sessions.
- The groups are poured into a fixed template with emoji prefixes. The
  revision template is built by a loop that appends one block per session.
- When no phrase matches, or the kind's pattern finds nothing, the result is
  the generic message: the subject in bold and the first 200 characters of
  the body, followed by "...".

The model has these modules, one `.dfy` file each:

- `Text` (text.dfy): Python's string predicates and character classes,
  `in`, `split('\n')` and `endswith`.
- `Regex` (regex.dfy): the order in which Python's backtracking engine tries
  a quantifier's choices. A greedy quantifier tries the longest first. A lazy
  quantifier, like the scan of `re.search`, tries the shortest first, and the
  first success decides.
- `LetterPattern` (letter_pattern.dfy): the letter pattern compiled by hand
  into one function per quantifier, each with a soundness contract.
  - `LetterOk` states the same pattern as a shape of the body, with no order.
  - Completeness lemmas show the matcher finds a match wherever the shape is.
  - Preference lemmas show that, of all the ways the shape splits the body
    at one start, the matcher returns the one the engine tries first: greedy
    quantifiers take the longest choice, lazy ones the shortest, and the
    optional second course word is taken whenever it fits.
  - From these, extraction fails exactly when the shape occurs nowhere, and
    otherwise returns the groups of the leftmost occurrence, split as the
    engine splits it. That split is unique.
- `LineFields` (line_fields.dfy): runs of labelled one-line fields, the
  common form of the live-session and revision patterns. Without DOTALL,
  `.` stops at a newline, so at a given start every group is the rest of its
  line. The matcher is proved to find a run exactly when the text has that
  shape.
- `LivePattern` (live_pattern.dfy): the live-session pattern.
- `RevisionPattern` (revision_pattern.dfy): the revision pattern and the
  `re.findall` scan, which resumes at each match's end. Its matches come in
  document order and do not overlap. No match starts in the gaps between the
  returned matches or after the last one; a match that starts inside an
  earlier returned match is passed over, as `findall` passes over it.
- `Notification` (notification.dfy): the classification, the templates and
  the whole function. It appears twice:
  - as the function `Format`;
  - as the method `FormatTelegramMessage`, which follows the source's if-chain
    and builds the revision message with a `for` loop (`RenderSessions`);
    the method is proved equal to `Format`.
- `Properties` (properties.dfy): what the message promises, in terms of the
  branches, the line structure of each template, and round trips from
  template values through the email text back into the message.

For the week line "Week 3 of Systems" the letter pattern captures the course
"of Systems", not "Systems". The lazy `.+?` after the week digits stops after
one character, the space. The course group `\w+(?:\s+\w+)?` can already
match from the next character, and it takes the two words "of Systems".
`LetterPattern.OfSystemsCourse` proves this for the body "Week 3 of
Systems", a blank line, "Dear Learner,", a blank line, "New videos are up.",
a blank line and "Warm Regards".

## Model

| member | source | states |
|---|---|---|
| Text.Contains | email-telegram-bot.py:40 | `t in s` holds exactly when some index of `s` starts an occurrence of `t` |
| Text.RunEnd | email-telegram-bot.py:41 | a greedy character-class run stops at the first character outside the class, or at the end of the text |
| Text.LineEnd | email-telegram-bot.py:51 | `.` without DOTALL runs to the first newline or the end of the text, and no further |
| Regex.Longest | email-telegram-bot.py:41 | a greedy quantifier returns the longest choice that lets the rest succeed; every longer choice fails, and when none succeeds, every choice fails |
| Regex.Shortest | email-telegram-bot.py:41 | a lazy quantifier, and the start scan of `re.search`, returns the first choice from the left that succeeds; every earlier one fails |
| Notification.Classify | email-telegram-bot.py:40-69 | the kind is Generic exactly when no phrase is in the subject; otherwise it is the kind of the first phrase, in the source's order, that the subject contains |
| LetterPattern.Groups | email-telegram-bot.py:43 | the week group is non-empty decimal digits; the course and content groups are non-empty |
| LetterPattern.ClosingAt | email-telegram-bot.py:41 | the closing matches at a place exactly when "\n\n" and the closer stand there, and it records that place |
| LetterPattern.ClosingFrom | email-telegram-bot.py:41 | `\s*\n\n<closer>` found after the content is a run of whitespace followed by a blank line and the closer |
| LetterPattern.ContentFrom | email-telegram-bot.py:41 | the lazy content group `(.+?)` is non-empty and is followed by the closing |
| LetterPattern.BlankAt | email-telegram-bot.py:41 | the blank line before the content is "\n\n" at the chosen place, followed by the content and the closing |
| LetterPattern.GreetingFrom | email-telegram-bot.py:41 | after "Dear Learner," comes whitespace, then the blank line, content and closing |
| LetterPattern.SalutationAt | email-telegram-bot.py:41 | "\n\nDear Learner," stands at the chosen place and the rest follows it |
| LetterPattern.SalutationFrom | email-telegram-bot.py:41 | after the course comes whitespace, then the salutation and the rest |
| LetterPattern.CourseEndAt | email-telegram-bot.py:41 | the course group ends where the salutation part begins |
| LetterPattern.SecondWordFrom | email-telegram-bot.py:41 | the optional second course word is a non-empty run of word characters, followed by the rest |
| LetterPattern.Word2StartAt | email-telegram-bot.py:41 | the second word starts at the chosen place |
| LetterPattern.CourseTail | email-telegram-bot.py:41 | whatever `(?:\s+\w+)?` and the rest return is either whitespace, a second word and the rest, or no second word and the rest |
| LetterPattern.WordEndAt | email-telegram-bot.py:41 | the first course word ends at the chosen place |
| LetterPattern.CourseAt | email-telegram-bot.py:41 | the course group starts at the chosen place with a non-empty word |
| LetterPattern.WeekEndAt | email-telegram-bot.py:41 | the lazy `.+?` after the week digits takes at least one character before the course |
| LetterPattern.LetterAt | email-telegram-bot.py:41 | a match at a given start has the letter's shape there |
| LetterPattern.Search | email-telegram-bot.py:41 | `re.search` returns a start inside the body at which the shape holds |
| LetterPattern.SearchSkips | email-telegram-bot.py:41 | no start left of the chosen one gives a match, and none gives one when the search fails |
| LetterPattern.ClosingComplete | email-telegram-bot.py:41 | wherever the closing has its shape, the matcher finds a closing |
| LetterPattern.ContentComplete | email-telegram-bot.py:41 | wherever content and closing have their shape, the lazy content group finds one |
| LetterPattern.GreetingComplete | email-telegram-bot.py:41 | wherever the text after the salutation has its shape, the matcher finds it |
| LetterPattern.SalutationComplete | email-telegram-bot.py:41 | wherever the text after the course has its shape, the matcher finds it |
| LetterPattern.SecondWordComplete | email-telegram-bot.py:41 | wherever a second word and the rest have their shape, the matcher finds them |
| LetterPattern.CourseTailComplete | email-telegram-bot.py:41 | wherever the rest of the course group has its shape, the optional group finds it |
| LetterPattern.CourseComplete | email-telegram-bot.py:41 | wherever the course and the rest have their shape, the matcher finds them |
| LetterPattern.WeekEndComplete | email-telegram-bot.py:41 | wherever a course follows the week digits, the lazy filler finds one |
| LetterPattern.LetterAtComplete | email-telegram-bot.py:41 | wherever the whole letter shape stands at a start, the matcher succeeds at that start |
| LetterPattern.ExtractLetter | email-telegram-bot.py:41-43 | the extracted week is non-empty digits, and the course and content are non-empty |
| LetterPattern.ExtractLetterFails | email-telegram-bot.py:41-42 | extraction fails exactly when no start and no split give the letter's shape |
| LetterPattern.ClosingFirst | email-telegram-bot.py:41 | the closing's greedy `\s*` takes the longest whitespace from which "\n\n" and the closer follow |
| LetterPattern.ContentFirst | email-telegram-bot.py:41 | the lazy content group ends at the first place from which the closing matches, so no closing matches inside the content |
| LetterPattern.GreetingFirst | email-telegram-bot.py:41 | the greedy `\s*` after "Dear Learner," takes the last blank line from which content and closing follow; on a tie, the content is the shortest |
| LetterPattern.SalutationFirst | email-telegram-bot.py:41 | the greedy `\s*` after the course takes the last salutation from which the rest follows |
| LetterPattern.SecondWordFirst | email-telegram-bot.py:41 | the second word's greedy `\w+` takes the longest word from which the rest follows |
| LetterPattern.CourseTailFirst | email-telegram-bot.py:41 | the optional group takes a second word whenever one lets the rest match, after the longest whitespace; only otherwise does the course stay one word |
| LetterPattern.SecondWordTried | email-telegram-bot.py:41 | no split with a second course word is tried before the one the optional group returns |
| LetterPattern.CourseFirst | email-telegram-bot.py:41 | the first course word's greedy `\w+` takes the longest word from which the rest follows |
| LetterPattern.FillerFirst | email-telegram-bot.py:41 | the lazy `.+?` after the week digits lets the course start at the first place from which the rest matches |
| LetterPattern.LetterFirst | email-telegram-bot.py:41 | the greedy `\d+` takes the most digits from which the rest matches, and no split at that start is tried before the one returned |
| LetterPattern.TriedBeforeTotal | email-telegram-bot.py:41 | of two different splits, the engine tries one before the other |
| LetterPattern.FirstMatchLeftmost | email-telegram-bot.py:41 | the reported match starts no later than any place where the shape occurs |
| LetterPattern.FirstMatchUnique | email-telegram-bot.py:41-43 | at most one start and split is the reported match, so the body determines the groups |
| LetterPattern.ExtractLetterLeftmost | email-telegram-bot.py:41-43 | a successful extraction returns the groups of the leftmost start where the shape occurs, split there as the engine tries first |
| LetterPattern.ExtractLetterAtStart | email-telegram-bot.py:41-43 | a body with the shape at its very start is matched there, with the split the engine tries first |
| LetterPattern.OfSystemsCourse | email-telegram-bot.py:41-43 | for the week line "Week 3 of Systems", the week is "3" and the course is "of Systems" |
| LineFields.FieldEnd | email-telegram-bot.py:51 | a label followed by a non-empty rest of line gives a value ending inside the text |
| LineFields.FieldRun | email-telegram-bot.py:51 | a run of labelled fields yields one value per label and ends inside the text |
| LineFields.FieldEndFinds | email-telegram-bot.py:51 | where a label and a one-line value end a line, the field found is exactly that value |
| LineFields.FieldRunSound | email-telegram-bot.py:51 | whatever the run matcher returns is labels and one-line values laid out at the start, ending a line |
| LineFields.FieldRunComplete | email-telegram-bot.py:51 | wherever labels and one-line values stand, the run matcher returns exactly those values |
| LineFields.FieldRunIff | email-telegram-bot.py:51 | at a given start, the run matcher returns given values and end exactly when the text has that shape there |
| LivePattern.LiveAt | email-telegram-bot.py:51 | whatever the matcher returns at a start has the live-session shape there |
| LivePattern.LiveOkShape | email-telegram-bot.py:51 | a live-session match is four non-empty one-line values laid out with their labels, the last ending its line |
| LivePattern.LiveAtIff | email-telegram-bot.py:51 | at any start the matcher returns exactly the groups of the shape there, and fails when there is none |
| LivePattern.ExtractLive | email-telegram-bot.py:51-53 | each group the search returns is a non-empty piece of one line |
| LivePattern.ExtractLiveLeftmost | email-telegram-bot.py:51-53 | a successful search returns the groups of the leftmost start where the shape occurs |
| LivePattern.ExtractLiveFails | email-telegram-bot.py:51-52 | the search fails exactly when the shape occurs nowhere in the body |
| LivePattern.ExtractLiveRoundTrip | email-telegram-bot.py:51-53 | a body that begins with the labelled lines gives back exactly the values written into them |
| RevisionPattern.AfterLine | email-telegram-bot.py:70 | `(?:\n\|$)` after a line end consumes exactly the text's newline when one follows, and nothing at the end of the text; the match never runs past the text |
| RevisionPattern.SessionAt | email-telegram-bot.py:70 | a match at a start is non-empty and ends inside the text |
| RevisionPattern.SessionAtIff | email-telegram-bot.py:70 | at any start the matcher returns exactly the groups and end of the session shape there, and fails when there is none |
| RevisionPattern.NextMatch | email-telegram-bot.py:70 | the scan for the next match returns the first start at or after the scan position where a match stands, and no match starts before it |
| RevisionPattern.Matches | email-telegram-bot.py:70 | `re.findall`'s matches are real matches, in document order, never overlapping; none starts before the first, and none at all when there is no match |
| RevisionPattern.MatchesGaps | email-telegram-bot.py:70 | between two consecutive matches no other match starts |
| RevisionPattern.MatchesTail | email-telegram-bot.py:70 | after the last match no match starts anywhere in the rest of the text |
| RevisionPattern.Findall | email-telegram-bot.py:70 | `findall` returns one session per match of the scan, in order: session k is the groups of the match at the k-th scan position |
| RevisionPattern.FindallEmpty | email-telegram-bot.py:70-71 | `findall` returns nothing exactly when no part of the body has the session shape |
| RevisionPattern.FindallSound | email-telegram-bot.py:70-73 | every session returned is the groups of a match: "ES_" and a name, then link, date and time, each one non-empty line |
| RevisionPattern.SessionTextMatches | email-telegram-bot.py:70 | a well-formed session laid out at a position is a match there, ending after its newline |
| RevisionPattern.MatchesFirst | email-telegram-bot.py:70 | where a match stands at the scan position, the scan returns it and resumes at its end |
| RevisionPattern.MatchesOfText | email-telegram-bot.py:70 | scanning sessions laid out one after the other finds each of them, in order |
| RevisionPattern.FindallRoundTrip | email-telegram-bot.py:70 | `findall` over the text of well-formed sessions gives back exactly those sessions, in order |
| Notification.SessionBlocksSnoc | email-telegram-bot.py:73-77 | appending one session appends its block after the blocks of the earlier ones |
| Notification.RenderSessions | email-telegram-bot.py:72-78 | the loop builds the title and one block per session, in order |
| Notification.FormatTelegramMessage | email-telegram-bot.py:39-81 | the if-chain, extraction and loop give exactly the message `Format` specifies |
| Properties.UnclassifiedIsGeneric | email-telegram-bot.py:80-81 | a subject with none of the phrases gets the subject in bold and at most 200 body characters, then "...", whatever the body holds |
| Properties.ReleasedRenders | email-telegram-bot.py:40-48 | a "Content released" subject over a body with the letter shape renders the groups of the leftmost shape ending in "Warm Regards", split as the engine tries first, whatever other phrases the subject holds |
| Properties.ReleasedFallsBack | email-telegram-bot.py:42 | with no letter shape the released branch falls through to the generic message and tries no other kind |
| Properties.LiveRenders | email-telegram-bot.py:50-58 | a live-session subject over a body with the block renders the groups of its leftmost occurrence: no block starts before the one rendered |
| Properties.LiveFallsBack | email-telegram-bot.py:52 | with no live block the branch falls through to the generic message |
| Properties.DeadlineRenders | email-telegram-bot.py:60-67 | a deadline subject renders the groups of the leftmost letter shape ending in "Regards", split as the engine tries first |
| Properties.DeadlineBranch | email-telegram-bot.py:60-67 | with a deadline subject, the extracted letter is what the message renders |
| Properties.DeadlineFallsBack | email-telegram-bot.py:62 | with no letter shape the deadline branch falls through to the generic message |
| Properties.RevisionRenders | email-telegram-bot.py:69-78 | a revision subject over a body with a session block renders every session `findall` returns |
| Properties.RevisionBranch | email-telegram-bot.py:69-78 | with a revision subject, the sessions found, when there are any, are what the message renders |
| Properties.RevisionFallsBack | email-telegram-bot.py:71 | with no session block the revision branch falls through to the generic message |
| Properties.GenericSnippet | email-telegram-bot.py:81 | the generic message is the bold subject, a blank line, a prefix of the body of length min(200, body length), and "..." |
| Properties.LetterNoticeOpens | email-telegram-bot.py:44-46 | both letter messages open with their title, a blank line and the week line |
| Properties.ReleasedNoticeCloses | email-telegram-bot.py:47-48 | the released-content message ends with the deadline reminder |
| Properties.DeadlineNoticeCloses | email-telegram-bot.py:64-67 | the deadline message ends with the content itself, with no reminder |
| Properties.LiveNoticeLines | email-telegram-bot.py:54-58 | the live message is six lines: title, blank, then course, date, time and link, in that order |
| Properties.LiveRoundTrip | email-telegram-bot.py:50-58 | a live-session subject over the labelled lines renders exactly those values |
| Properties.SessionLinesAt | email-telegram-bot.py:73-77 | block k of the revision lines is exactly the five lines of session k |
| Properties.SessionBlockLines | email-telegram-bot.py:74-77 | one session's block is five lines: name, date, time, link and an empty line |
| Properties.SessionBlocksLines | email-telegram-bot.py:73-77 | the blocks split into five lines per session, in order, and the empty line after the final newline |
| Properties.RevisionNoticeLines | email-telegram-bot.py:72-78 | the revision message is the title, a blank line, five lines per session in the order given, and a final empty line |
| Properties.RevisionLines | email-telegram-bot.py:70-78 | a revision subject renders one block of lines per session `findall` returns, in document order |
| Properties.RevisionRoundTrip | email-telegram-bot.py:70-78 | a revision subject over the sessions' own text renders exactly those sessions, in order |

## Left out

- Mailbox polling, IMAP, email decoding, the Telegram client and logging are left out (email-telegram-bot.py:21-37 and 83-153). They are I/O around the core. So are the configuration constants at lines 13-19.
- `parse_email_body` can return `None`, for a multipart email without a `text/plain` part. The function would then raise inside `re.search` or in the slice. The model takes the body as a string, so this error path is not modelled.
- LetterPattern.ExtractLetter: `\d` and `\w` are modelled on ASCII only. Python's `str` patterns also accept non-ASCII digits and letters there. On a body with such characters the model may return a different start or different groups, or no match, where Python matches. For "Week 3 of Systèmes", a blank line, "Dear Learner,", a blank line, "X", a blank line and "Warm Regards", Python's course is "of Systèmes"; the model's lazy filler skips past the "è" and its course is "mes". `\s` is Python's full whitespace set.
- Telegram parses the message as HTML. Subjects or groups holding `<` or `&` are passed through unescaped, and how Telegram treats them is not modelled. Neither is its limit on message length.
- RenderSessions: Python's `+=` on a `str` builds a new string; the model reassigns a `string` variable, which is the same thing for a value type.
- The letter pattern has soundness, completeness and leftmost-match lemmas. It has no round trip from a template back through the email text, because the lazy filler after the week digits makes the course depend on the wording of the week line (see the note above).
- Properties.LetterNoticeOpens: states only the first three lines of the letter messages. The course and content may themselves hold newlines, so the later line numbers depend on the values.
