# Contact-form intent classifier

A Dafny model of the logic in the portfolio contact backend (`app.py`):

- `detect_intent` lower-cases a visitor's message and labels it `"recruiter"`
  when one of seven recruiter keywords occurs in it as a substring, otherwise
  `"client"` when one of six client keywords occurs, otherwise `"general"`.
  The recruiter test runs first, so it wins when both kinds of keyword occur.
- `auto_reply_html` picks the headline and the body paragraph of the
  acknowledgement from the intent string. Only `"recruiter"` and `"client"`
  have their own text. Every other string gets the general text.
- The POST `/contact` handler reads the JSON body, with `{}` standing in for
  a body that does not parse or is falsy. It answers 400 when the body is an
  object and one of `name`, `email`, `message` is missing or falsy. A truthy
  body that is not an object gets 500, because it has no `get`. Only when all
  three fields are truthy does it classify the message and build the admin
  alert and the acknowledgement. It answers 200 even when the mail service
  fails.

Modules, one per concern of `app.py`:

- `Text` (text.dfy): ASCII lower-casing and Python's substring test `k in s`,
  with a reference meaning ("`k` starts at some position of `s`") proved
  equal to the recursive test.
- `Intent` (intent.dfy): the `Label` datatype, the two keyword lists, `Classify`
  (`detect_intent`), and the properties of classification.
- `Reply` (reply.dfy): the headline and body selection of `auto_reply_html`.
- `Contact` (contact.dfy): parsed JSON values, Python truthiness, the
  required-field gate and the handler's three outcomes (200, 400, 500).

`app.py` computes no urgency or priority flag, so none is modelled. The
handler accepts any truthy JSON value for `name` and `email`, not only
non-empty text. A truthy `message` that is not a string makes
`message.lower()` raise, which the handler answers with 500. The model
follows the code in both cases.

## Model

| member | source | states |
|---|---|---|
| Text.LowerChar | app.py:39 | the lowered character is never an upper-case ASCII letter; other characters are unchanged; 'A'..'Z' move to 'a'..'z' |
| Text.Lower | app.py:39 | the ASCII lowering of the message keeps the length and lowers each character in place |
| Text.LowerHasNoUpper | app.py:39 | a lowered message holds no upper-case ASCII letter |
| Text.LowerIdempotent | app.py:39 | lowering twice equals lowering once |
| Text.LowerAppend | app.py:39 | lowering distributes over concatenation |
| Text.Contains | app.py:48 | `k in s` holds exactly when `k` starts at some position of `s` (raw substring test; the empty keyword occurs everywhere) |
| Text.ContainsInContext | app.py:48 | a keyword found in a text is still found after text is added on either side |
| Text.ContainsAny | app.py:48-51 | `any(word in msg for word in ks)` holds exactly when some keyword of the list occurs in `msg` |
| Text.MissingCharRulesOut | app.py:48 | a keyword with a character the text lacks cannot occur in it |
| Text.MissingCharsRuleOutAll | app.py:48-51 | if every keyword has a character the text lacks, no keyword of the list occurs |
| Text.MissingPairRulesOut | app.py:48 | a keyword holding two adjacent characters that are never adjacent in the text cannot occur in it |
| Text.MissingPairsRuleOutAll | app.py:48-51 | if every keyword holds such a pair, no keyword of the list occurs |
| Intent.Name | app.py:49-52 | the classifier's result is one of exactly "recruiter", "client", "general" |
| Intent.NameInjective | app.py:49-52 | distinct labels have distinct strings |
| Intent.MentionsDecided | app.py:48-51 | the source's `any(...)` test on the lowered message decides the reference meaning "some keyword occurs at some position" |
| Intent.Classify | app.py:38-52 | total; recruiter iff a recruiter keyword occurs in the lowered message; client iff none does and a client keyword does; general iff neither does |
| Intent.ClassifyIgnoresCase | app.py:39 | a message and its lowered form get the same label |
| Intent.ClassifySameUpToCase | app.py:39 | messages that differ only in ASCII letter case get the same label |
| Intent.RecruiterKeywordWins | app.py:41-49 | any recruiter keyword gives "recruiter", whatever client keywords are present |
| Intent.ClientKeywordWithoutRecruiter | app.py:44-51 | with no recruiter keyword, any client keyword gives "client" |
| Intent.NoKeywordIsGeneral | app.py:48-52 | with neither kind of keyword, the label is "general" |
| Intent.ClassifyInContext | app.py:48-51 | adding text around a message never demotes it: recruiter stays recruiter, client never becomes general |
| Intent.EmptyIsGeneral | app.py:52 | the empty message is "general" |
| Intent.SubstringNotWholeWord | app.py:42-49 | matching ignores word boundaries: "internal" and "roles" are recruiter messages |
| Intent.InternshipImpliesIntern | app.py:42 | every text containing "internship" contains "intern" |
| Intent.InternshipNeverChangesLabel | app.py:41-48 | for every text, the recruiter test with "internship" removed from the list gives the same answer as with it |
| Intent.RecruiterWithoutInternship | app.py:41-49 | a message is "recruiter" exactly when one of the six keywords other than "internship" occurs in its lowered form |
| Intent.RecruiterBeatsClientExample | app.py:48-51 | "freelance job opportunity", in any letter case, mentions a client keyword and is still "recruiter" |
| Intent.HiringExample | app.py:48-49 | "looking for a hiring opportunity", in any letter case, is "recruiter" |
| Intent.ProjectBudgetExample | app.py:48-51 | "let's discuss a project budget", in any letter case, is "client" |
| Intent.ProjectBudgetHasNoRecruiterKeyword | app.py:41-43 | no recruiter keyword occurs in "let's discuss a project budget", although every letter of "job", "role" and "career" does |
| Intent.ProjectBudgetHasProject | app.py:44-46 | the client keyword "project" occurs in "let's discuss a project budget" |
| Intent.PortfolioExample | app.py:48-52 | "hello, loved your portfolio!", in any letter case, is "general" |
| Intent.PortfolioHasNoRecruiterKeyword | app.py:41-43 | no recruiter keyword occurs in "hello, loved your portfolio!" |
| Intent.PortfolioHasNoClientKeyword | app.py:44-46 | no client keyword occurs in "hello, loved your portfolio!" |
| Reply.AutoReply | app.py:56-83 | headline "Thanks for getting in touch" exactly for the string "client", "Thank you for reaching out" for every other string; opportunity body exactly for "recruiter", project body exactly for "client", general body for everything else; the name is passed through |
| Reply.AutoReplyFollowsLabel | app.py:58-83 | for the string of a label, the reply holds that label's body, and the "getting in touch" headline exactly for client |
| Reply.RecruiterAndGeneralShareHeadline | app.py:58-79 | worked example: recruiter and general replies have the same headline and different bodies |
| Contact.Truthy | app.py:146-152 | the truth test used by `or {}` and `not`: null, false, 0, "", [] and {} are falsy; every other value is truthy |
| Contact.AllRequiredPresent | app.py:152 | the gate's condition: every required field (`name`, `email`, `message`) is present and truthy |
| Contact.Data | app.py:146 | a truthy parsed body is used as it is; an unparsable or falsy one becomes `{}` |
| Contact.Get | app.py:148-150 | a present key gives its value; a missing key gives a falsy value |
| Contact.Status | app.py:153-194 | the handler answers only 200, 400 or 500 |
| Contact.Handle | app.py:144-194 | 400 exactly when the body is an object and some required field is missing or falsy; 200 exactly when all are present and truthy and the message is a string, with the label `Classify(message)`, an admin alert carrying the fields and the label, and an acknowledgement to `email` with the template chosen for the label's string; 500 otherwise |
| Contact.UnparsableBodyIsBadRequest | app.py:146-153 | a body that does not parse is answered 400, not 500 |
| Contact.FalsyBodyIsBadRequest | app.py:146-153 | null, false, 0, "", [] and {} as the whole body are answered 400 |
| Contact.TruthyNonObjectIsServerError | app.py:146-148 | a truthy body that is not an object is answered 500 |
| Contact.MissingFieldIsBadRequest | app.py:152-153 | one missing or falsy required field gives 400, whatever the rest holds |
| Contact.AcknowledgementMatchesIntent | app.py:155-183 | an accepted submission's acknowledgement uses its label's body, and the "getting in touch" headline exactly when the label is client |
| Contact.BlankMessagePassesGate | app.py:152-155 | the gate tests emptiness, not blankness: a message of one space is accepted |

## Left out

- Flask routing, the `/health` and OPTIONS handlers and the CORS settings (app.py:12-34, 137-140): framework plumbing.
- The mail service (app.py:159-188). The model builds the two mails as records and does not send them. Errors from the mail service are swallowed and do not change the 200 answer, so the model needs no parameter for them.
- The sender and receiver addresses read from the environment (app.py:10, 27-29): process configuration. The admin alert carries neither the sender nor the receiver address; it does carry the visitor's `email`.
- The timestamp (app.py:156): a clock read.
- The printing of caught exceptions (app.py:188, 193): logging.
- The HTML markup of both mails (app.py:85-135, 166-174), including the admin subject line and `intent.upper()`. The model keeps which headline and body are chosen and which values go into the mails.
- How a non-string `name` or `email` is rendered into the mails (Python's `str()`): the model carries the JSON value unchanged.
- Exceptions other than the two the handler's own code raises (`data.get` on a non-object, `lower()` on a non-string message).
- Text.Lower: models `str.lower` on ASCII letters only, because Unicode case mapping is not available in Dafny; non-ASCII letters are left unchanged, whereas Python lowers them too and can lengthen the string ('İ', U+0130, becomes 'i' followed by U+0307). This cannot change a label, by the following argument, which is not proved in Dafny. The keywords are ASCII. Only 'İ' and the Kelvin sign (U+212A, which becomes 'k') lower into ASCII letters. No keyword contains 'k'. No keyword ends in 'i', and none has U+0307 after an 'i'.
- JSON numbers are exact reals, so NaN and infinities are not represented.
