# Aarambam Fintwin — a Dafny model of the frontend's logic

Aarambam is a rural-fintech web app. Its React frontend offers:

- an offline wallet that is loaded while online and pays while offline, with a local ledger and a simulated payment token;
- "Scan & Pay", where payments under ₹500 skip the UPI PIN;
- transfers to a bank account, guided by voice;
- transfers to a phone contact;
- a four-step registration wizard that ends with a voice check;
- an AI form filler that reads payment slips;
- a scam-message checker, a financial-advice chatbot, a masked balance card, daily news, a credit-score dial and the transaction history.

This project restates the logic of those screens and hooks in Dafny and proves what they promise.

How the model is built:

- One module per source file.
- Component state that the handlers update in place is a `class`. Each field is one `useState` variable. Each handler is a `method` whose `modifies` clause names the fields it sets.
- The pure parts are functions with contracts and lemmas: thresholds, filters, string clean-up, keyword matching, the title table and the translation fallback.
- A timer callback (`setTimeout` / `setInterval`) is its own method, one atomic step. Work waiting for a timer is a queue field that captures what the timer will read.

Shared pieces:

- `JsText` models the JavaScript string operations the code relies on: `trim` and its whitespace set, `includes`, `indexOf`, `replace` with a string pattern, `replaceAll`, ASCII `toLowerCase`/`toUpperCase`, number-to-text, and the `isNaN` test on text.
- `AmountField` models the value of an amount input: empty, not a number, or a number.
- `Sequences` defines "is a subsequence of", which the filters use.
- `Options` and `Navigation` hold the optional value and the payment-success navigation target.

## Notes on the source

- `useOfflineWallet.js` has no transaction ids, no sync status and no sync queue. Its sync effect (`useOfflineWallet.js:28-34`) only logs.
- `loadMoney` and `payOffline` do not reject non-positive amounts.
- `payOffline` checks only `balance < amount`.
- The PIN modal's checks use `isNaN`, not a digit test. `"12.5"` or `"-123"` are therefore taken as spoken PINs (`PinModal.DecimalTextTaken`).

## Model

| member | source | states |
|---|---|---|
| OfflineLedger.Token | aarambam-frontend/src/hooks/useOfflineWallet.js:56 | the payment token starts with `OFFLINE_TX_` and is built from the time, the amount and the receiver |
| OfflineLedger.TokenInjective | aarambam-frontend/src/hooks/useOfflineWallet.js:56 | two tokens are equal only if time, amount and receiver are all equal, so a token identifies its payment |
| OfflineLedger.SplitAtSeparator | aarambam-frontend/src/hooks/useOfflineWallet.js:56 | a digit run followed by `_` splits uniquely, which is what makes the token readable back |
| OfflineLedger.DigitRunLength | aarambam-frontend/src/hooks/useOfflineWallet.js:56 | the leading digit run of `digits_rest` is exactly the digits |
| OfflineLedger.UpdatedLedger | aarambam-frontend/src/hooks/useOfflineWallet.js:69-74 | `updateWallet`: the new balance, and the new entry put in front of the old log, which is kept intact |
| OfflineLedger.LoadStep | aarambam-frontend/src/hooks/useOfflineWallet.js:37-45 | a load succeeds iff online; on failure nothing changes; on success the balance rises by the amount, one LOAD entry is prepended, and balance/log consistency is preserved |
| OfflineLedger.PayStep | aarambam-frontend/src/hooks/useOfflineWallet.js:48-66 | a payment fails iff the balance is below the amount, and then changes nothing; on success the balance drops by the amount and a PAY entry carrying the token is prepended; consistency is preserved |
| OfflineLedger.ReplayConsistent | aarambam-frontend/src/hooks/useOfflineWallet.js:37-74 | after any sequence of loads and payments from the empty wallet, the balance equals loads minus payments in the log |
| OfflineLedger.ReplayOneEntryPerChange | aarambam-frontend/src/hooks/useOfflineWallet.js:69-74 | each action either leaves the ledger unchanged or adds exactly one log entry |
| OfflineLedger.OfflineWallet.constructor | aarambam-frontend/src/hooks/useOfflineWallet.js:7-9 | a fresh wallet is empty, consistent and has nothing stored |
| OfflineLedger.OfflineWallet.Restore | aarambam-frontend/src/hooks/useOfflineWallet.js:12-15 | mounting with a saved record takes its balance and log and leaves storage in step; a consistent record gives a valid wallet |
| OfflineLedger.OfflineWallet.SetOnline | aarambam-frontend/src/hooks/useOfflineWallet.js:18-19 | the online/offline events set only the online flag |
| OfflineLedger.OfflineWallet.UpdateWallet | aarambam-frontend/src/hooks/useOfflineWallet.js:69-74 | the state becomes `UpdatedLedger` of the old state, and the stored snapshot equals the new state |
| OfflineLedger.OfflineWallet.LoadMoney | aarambam-frontend/src/hooks/useOfflineWallet.js:37-45 | `loadMoney`, on any restored record, does what `LoadStep` says, keeps storage in step with the state, keeps the ledger consistent when it was, and persists on success |
| OfflineLedger.OfflineWallet.PayOffline | aarambam-frontend/src/hooks/useOfflineWallet.js:48-66 | `payOffline`, on any restored record, does what `PayStep` says, returns the token on success, keeps storage in step with the state, keeps the ledger consistent when it was, and persists on success |
| OfflineWalletScreen.PayeeId | aarambam-frontend/src/pages/OfflineWallet.jsx:31 | the receiver id paid is the typed receiver, or "Merchant" when it is empty |
| OfflineWalletScreen.ShownReceiver | aarambam-frontend/src/pages/OfflineWallet.jsx:34 | the success page shows the typed receiver, or "Offline Merchant", which differs from the id actually paid |
| OfflineWalletScreen.Screen.constructor | aarambam-frontend/src/pages/OfflineWallet.jsx:12-16 | the screen starts on the pay tab with empty fields |
| OfflineWalletScreen.Screen.SelectTab | aarambam-frontend/src/pages/OfflineWallet.jsx:61-67 | the tab buttons set the active tab |
| OfflineWalletScreen.Screen.EditAmount | aarambam-frontend/src/pages/OfflineWallet.jsx:95 | typing sets the amount |
| OfflineWalletScreen.Screen.EditReceiver | aarambam-frontend/src/pages/OfflineWallet.jsx:86 | typing sets the receiver |
| OfflineWalletScreen.Screen.HandleTransaction | aarambam-frontend/src/pages/OfflineWallet.jsx:18-37 | on any restored record it keeps storage in step and keeps the ledger consistent when it was; an empty amount does nothing; on the load tab a successful load clears the amount and switches to pay; on the pay tab a successful payment navigates with the amount and the shown receiver, and a refused one navigates nowhere |
| ScanPay.Proceed | aarambam-frontend/src/pages/ScanPay.jsx:46-60 | an empty or non-positive amount is refused; a positive amount below 500 pays without a PIN; 500 or more, or text that is not a number, asks for the PIN |
| ScanPay.ShowsFastPath | aarambam-frontend/src/pages/ScanPay.jsx:153-165 | the fast-path label shows exactly for a typed number below 500; a blank or malformed amount shows none |
| ScanPay.FastPathLabelAgrees | aarambam-frontend/src/pages/ScanPay.jsx:153-165 | the green "no PIN" label shows for exactly the accepted amounts that pay without a PIN |
| ScanPay.Screen.constructor | aarambam-frontend/src/pages/ScanPay.jsx:14-17 | the screen starts at the permission step with no QR data, an empty amount and the PIN modal closed |
| ScanPay.Screen.StartCamera | aarambam-frontend/src/pages/ScanPay.jsx:21-30 | granting the camera moves to scanning |
| ScanPay.Screen.ScanTimerFires | aarambam-frontend/src/pages/ScanPay.jsx:33-43 | the scan timer records the fixed QR data and moves to the amount step |
| ScanPay.Screen.EditAmount | aarambam-frontend/src/pages/ScanPay.jsx:148 | typing sets the amount |
| ScanPay.Screen.Completion | aarambam-frontend/src/pages/ScanPay.jsx:62-66 | the success page gets the typed amount and the scanned receiver |
| ScanPay.Screen.HandleProceed | aarambam-frontend/src/pages/ScanPay.jsx:46-60 | a refused amount changes nothing; the fast path completes at once; otherwise the PIN modal opens |
| ScanPay.Screen.PinSuccess | aarambam-frontend/src/pages/ScanPay.jsx:178 | PIN success closes the modal and completes the payment |
| ScanPay.Screen.ClosePin | aarambam-frontend/src/pages/ScanPay.jsx:177 | closing the modal only closes it |
| PinModal.JoinFour | aarambam-frontend/src/components/common/PinModal.jsx:21 | `pin.join('')` over the four slots is the four texts in slot order |
| PinModal.JoinIsCorrectPinIff | aarambam-frontend/src/components/common/PinModal.jsx:21 | with one character at most per slot, the joined PIN is "1234" iff the slots are "1", "2", "3", "4" |
| PinModal.RemoveSpaces | aarambam-frontend/src/components/common/PinModal.jsx:33 | removing whitespace leaves no whitespace, never lengthens, and keeps text without whitespace |
| PinModal.RemoveSpacesKeepsOthers | aarambam-frontend/src/components/common/PinModal.jsx:33 | the result is a subsequence of the transcript holding every non-whitespace character exactly as often as the transcript does, and no whitespace |
| PinModal.CleanVoicePin | aarambam-frontend/src/components/common/PinModal.jsx:33 | the cleaned PIN is the first four characters of the text without whitespace |
| PinModal.SpokenDigitsTaken | aarambam-frontend/src/components/common/PinModal.jsx:34 | four spoken digits are always taken |
| PinModal.SpacedPinIsCorrect | aarambam-frontend/src/components/common/PinModal.jsx:33-36 | "1 2 3 4" is heard as the correct PIN |
| PinModal.DecimalTextTaken | aarambam-frontend/src/components/common/PinModal.jsx:34 | "12.5" passes the `isNaN` test and fills the slots although it is not a PIN |
| PinModal.PinPad.constructor | aarambam-frontend/src/components/common/PinModal.jsx:7-8 | four empty slots and no error |
| PinModal.PinPad.HandleChange | aarambam-frontend/src/components/common/PinModal.jsx:12-28 | a value `isNaN` rejects is ignored; otherwise only slot `index` changes; a verdict comes only when the last slot gets a value; it accepts iff the slots read 1234; only a wrong PIN sets the error |
| PinModal.PinPad.ResetAfterWrongPin | aarambam-frontend/src/components/common/PinModal.jsx:25 | the reset timer empties the slots and clears the error |
| PinModal.PinPad.HandleVoicePin | aarambam-frontend/src/components/common/PinModal.jsx:30-39 | a four-character numeric cleaned PIN fills the slots and succeeds iff it is 1234; anything else changes nothing; no error is ever raised |
| VoiceInput.MapsWellFormed | aarambam-frontend/src/components/common/Input.jsx:15-26 | every word in the English and Tamil maps is non-empty |
| VoiceInput.WellFormedConcat | aarambam-frontend/src/components/common/Input.jsx:29-30 | two well-formed word lists joined are still well formed, so the English and Tamil passes can be read as one list |
| VoiceInput.RewriteLast | aarambam-frontend/src/components/common/Input.jsx:29-30 | the last entry of a map is the last `replaceAll` applied |
| VoiceInput.RewriteConcat | aarambam-frontend/src/components/common/Input.jsx:29-30 | applying the English rules and then the Tamil rules is applying their concatenation |
| VoiceInput.AbsentFirstChar | aarambam-frontend/src/components/common/Input.jsx:29-30 | a word whose first letter does not occur cannot occur |
| VoiceInput.RewriteUntouched | aarambam-frontend/src/components/common/Input.jsx:29-30 | text containing no first letter of any word is left alone by the rewriting |
| JsText.KeepDigits | aarambam-frontend/src/components/common/Input.jsx:33 | `replace(/[^0-9]/g, '')` leaves only digits, never lengthens, and keeps a text of digits as it is |
| JsText.KeepDigitsKeepsDigits | aarambam-frontend/src/components/common/Input.jsx:33 | the result is a subsequence of the text holding every digit exactly as often as the text does, and nothing else |
| VoiceInput.Normalise | aarambam-frontend/src/components/common/Input.jsx:8-34 | a field that does not convert gets the transcript unchanged; one that converts gets digits only |
| VoiceInput.DigitsUnchanged | aarambam-frontend/src/components/common/Input.jsx:8-34 | a transcript of digits is kept as it is |
| VoiceInput.NormaliseIdempotent | aarambam-frontend/src/components/common/Input.jsx:8-34 | processing the processed text again changes nothing |
| VoiceInput.ReplaceLeadingWord | aarambam-frontend/src/components/common/Input.jsx:29 | a word at the start of a text in which it cannot start again is replaced once and the rest is kept |
| VoiceInput.RewriteSnoc | aarambam-frontend/src/components/common/Input.jsx:29-30 | one more rule at the end of a map is one more `replaceAll` pass on the result |
| VoiceInput.MixedCaseExample | aarambam-frontend/src/components/common/Input.jsx:12-33 | "ONE two" in a numeric field becomes "12" |
| VoiceInput.ApplyRules | aarambam-frontend/src/components/common/Input.jsx:29-30 | one `forEach` pass over a map computes `Rewrite` with that map's rules in key order |
| VoiceInput.ProcessVoiceInput | aarambam-frontend/src/components/common/Input.jsx:8-34 | lowercasing, the English pass, the Tamil pass and the final digit filter compute `Normalise` |
| VoiceInput.HandleVoiceInput | aarambam-frontend/src/components/common/Input.jsx:36-42 | the field receives the processed transcript: digits only for numeric fields, the transcript otherwise |
| BalanceCard.Step | aarambam-frontend/src/components/dashboard/BalanceCard.jsx:11-22 | the eye button hides a shown balance and otherwise opens the PIN modal; PIN success shows the balance and closes the modal; closing only closes |
| BalanceCard.ShownOnlyAfterPin | aarambam-frontend/src/components/dashboard/BalanceCard.jsx:11-22 | after any run of events the balance is shown iff a PIN success has happened since the last time the eye button hid it |
| BalanceCard.HeadingAfterRun | aarambam-frontend/src/components/dashboard/BalanceCard.jsx:11-35 | after any run of events the heading shows the balance iff a PIN success has happened since the last eye press, and the mask otherwise |
| BalanceCard.Card.constructor | aarambam-frontend/src/components/dashboard/BalanceCard.jsx:7-9 | hidden, modal closed, balance 14250.00 |
| BalanceCard.Card.ToggleBalance | aarambam-frontend/src/components/dashboard/BalanceCard.jsx:11-17 | the flags move as `Step` says for the eye button |
| BalanceCard.Card.HandlePinSuccess | aarambam-frontend/src/components/dashboard/BalanceCard.jsx:19-22 | the flags move as `Step` says for PIN success |
| BalanceCard.Card.ClosePinModal | aarambam-frontend/src/components/dashboard/BalanceCard.jsx:61 | the flags move as `Step` says for closing |
| SendToBank.With | aarambam-frontend/src/pages/SendToBank.jsx:67-70 | `handleInputChange` sets one field and leaves the others alone |
| SendToBank.NextStep | aarambam-frontend/src/pages/SendToBank.jsx:30-58 | the guide moves at most one step and never past 5, and each move happens only under that step's condition |
| SendToBank.GuideMonotone | aarambam-frontend/src/pages/SendToBank.jsx:23-65 | across any sequence of guide ticks the step never goes down and never exceeds 5 or the number of ticks |
| SendToBank.PayEnabled | aarambam-frontend/src/pages/SendToBank.jsx:162 | the Pay button stays disabled while the IFSC is unverified |
| SendToBank.PayAccepted | aarambam-frontend/src/pages/SendToBank.jsx:82-86 | the click handler goes on exactly when the button's holder and amount test passes and an account number is given; it does not look at the IFSC verification |
| SendToBank.PayIgnoresConfirmation | aarambam-frontend/src/pages/SendToBank.jsx:82-86 | the pay handler accepts an account number that differs from its confirmation |
| SendToBank.Form.constructor | aarambam-frontend/src/pages/SendToBank.jsx:15-20 | empty details, unverified, modal closed, step 0 |
| SendToBank.Form.VoiceTick | aarambam-frontend/src/pages/SendToBank.jsx:28-60 | a guide tick moves the step as `NextStep` says |
| SendToBank.Form.HandleInputChange | aarambam-frontend/src/pages/SendToBank.jsx:67-70 | the details become `With` of the old details |
| SendToBank.Form.EditIfsc | aarambam-frontend/src/pages/SendToBank.jsx:128-131 | the IFSC is stored upper-cased and verification is cleared |
| SendToBank.Form.VerifyIfsc | aarambam-frontend/src/pages/SendToBank.jsx:72-79 | an IFSC longer than 4 characters verifies; a shorter one leaves the flag as it was |
| SendToBank.Form.HandlePayClick | aarambam-frontend/src/pages/SendToBank.jsx:82-86 | the PIN modal opens iff account number, holder and amount are all given |
| SendToBank.Form.HandlePinSuccess | aarambam-frontend/src/pages/SendToBank.jsx:88-93 | the modal closes and the success page gets the amount and the holder |
| SendToMobile.Matches | aarambam-frontend/src/pages/SendToMobile.jsx:83 | an empty search matches every contact, and a matching search is no longer than the name |
| SendToMobile.FilterContacts | aarambam-frontend/src/pages/SendToMobile.jsx:83 | the shown contacts are exactly those whose name contains the search text (case-insensitive), in their original order, each as often as in the list |
| SendToMobile.EmptySearchShowsAll | aarambam-frontend/src/pages/SendToMobile.jsx:83 | an empty search shows the whole list |
| SendToMobile.AmountAccepted | aarambam-frontend/src/pages/SendToMobile.jsx:46 | the amount is accepted iff it is a number above zero: blank, not-a-number and non-positive amounts are refused |
| SendToMobile.Screen.constructor | aarambam-frontend/src/pages/SendToMobile.jsx:13-20 | no permission, no contacts, nothing selected, dialogs closed |
| SendToMobile.Screen.RequestPermission | aarambam-frontend/src/pages/SendToMobile.jsx:29-36 | allowing loads the four contacts; refusing changes nothing |
| SendToMobile.Screen.EditSearch | aarambam-frontend/src/pages/SendToMobile.jsx:79 | typing sets the search text |
| SendToMobile.Screen.Shown | aarambam-frontend/src/pages/SendToMobile.jsx:83 | nothing is listed before permission; an empty search lists every contact |
| SendToMobile.Screen.InitiatePayment | aarambam-frontend/src/pages/SendToMobile.jsx:38-43 | picking a contact selects it, clears the amount and opens the dialog |
| SendToMobile.Screen.EditAmount | aarambam-frontend/src/pages/SendToMobile.jsx:109 | typing sets the amount |
| SendToMobile.Screen.CloseAmountModal | aarambam-frontend/src/pages/SendToMobile.jsx:100 | the close button closes the dialog |
| SendToMobile.Screen.HandleProceedToPin | aarambam-frontend/src/pages/SendToMobile.jsx:45-52 | a refused amount keeps the dialog open; an accepted one swaps it for the PIN modal |
| SendToMobile.Screen.HandlePinSuccess | aarambam-frontend/src/pages/SendToMobile.jsx:54-60 | the modal closes and the success page gets the amount and the contact's name |
| Register.IncludedInShort | aarambam-frontend/src/pages/Register.jsx:35 | a text of at most five characters that contains a five-letter word is that word |
| Register.VoicePhraseOk | aarambam-frontend/src/pages/Register.jsx:35 | no transcript shorter than five characters passes the voice check |
| Register.VoicePhraseOkIff | aarambam-frontend/src/pages/Register.jsx:35 | the voice check passes iff the transcript is longer than five characters or reads "voice" in any case |
| Register.InstructionFor | aarambam-frontend/src/pages/Register.jsx:84-87 | steps 1, 2 and 3 have their own instruction; every other step gets the voice-authentication one |
| Register.ProgressDots | aarambam-frontend/src/pages/Register.jsx:107-108 | dot i is highlighted iff the step is at least i |
| Register.ProgressDotsPrefix | aarambam-frontend/src/pages/Register.jsx:107-108 | on a reachable step exactly the first `step` dots are highlighted |
| Register.Keys | aarambam-frontend/src/pages/Register.jsx:53-59 | the keys of the request parts, in order |
| Register.RegistrationBody | aarambam-frontend/src/pages/Register.jsx:53-59 | the keys sent are full_name, mobile, password, then account_no, ifsc and kyc_doc in that order, each of the last three only when its field is given, and each part carries its field's value |
| Register.OptionalKeysSentIff | aarambam-frontend/src/pages/Register.jsx:53-59 | account_no, ifsc and kyc_doc are each sent iff their field is given; the three required keys always are |
| Register.Wizard.constructor | aarambam-frontend/src/pages/Register.jsx:15-22 | step 1, not voice-verified, empty form |
| Register.Wizard.HandleNext | aarambam-frontend/src/pages/Register.jsx:23 | "Next" advances one step and stays within steps 1–4 |
| Register.Wizard.BackPressed | aarambam-frontend/src/pages/Register.jsx:99 | the back arrow leaves for login on step 1 and otherwise goes back one step |
| Register.Wizard.EditForm | aarambam-frontend/src/pages/Register.jsx:120-140 | editing replaces the form data |
| Register.Wizard.HandleVoiceResult | aarambam-frontend/src/pages/Register.jsx:31-41 | the flag becomes set when the check passes and is never cleared |
| Register.Wizard.HandleRegister | aarambam-frontend/src/pages/Register.jsx:45-59 | nothing is sent without the voice check; otherwise the body is `RegistrationBody` of the form |
| FormFiller.With | aarambam-frontend/src/pages/FormFiller.jsx:158-176 | editing a field changes that field only |
| FormFiller.EmptyLabelsOfOrder | aarambam-frontend/src/pages/FormFiller.jsx:54-58 | the missing list is the four conditional pushes, in order |
| FormFiller.MissingFields | aarambam-frontend/src/pages/FormFiller.jsx:54-58 | the missing list names exactly the empty fields, each iff empty, in the order Name, Account Number, IFSC Code, Amount |
| FormFiller.EmptyLabelsNamesEmpty | aarambam-frontend/src/pages/FormFiller.jsx:54-58 | a field's label is in the missing list iff the field is empty |
| FormFiller.SubsequenceOfLabels | aarambam-frontend/src/pages/FormFiller.jsx:54-58 | the missing list is a subsequence of the four labels |
| FormFiller.PromptFor | aarambam-frontend/src/pages/FormFiller.jsx:60-66 | "all filled" iff nothing is missing; otherwise the first missing label |
| FormFiller.PromptNamesFirstEmpty | aarambam-frontend/src/pages/FormFiller.jsx:54-66 | the field the prompt names is empty and every field before it was read |
| FormFiller.Filler.constructor | aarambam-frontend/src/pages/FormFiller.jsx:11-14 | no file, no preview, no data |
| FormFiller.Filler.ProcessImage | aarambam-frontend/src/pages/FormFiller.jsx:36-73 | the form is cleared and filled only on a 'success' reply, and that reply's prompt is returned |
| FormFiller.Filler.OnDrop | aarambam-frontend/src/pages/FormFiller.jsx:20-26 | a dropped file is kept with its preview and processed: a 'success' reply fills the form and returns the prompt for its first empty field, any other reply clears the form and prompts nothing; no file changes nothing |
| FormFiller.Filler.EditField | aarambam-frontend/src/pages/FormFiller.jsx:158-176 | a field edit sets that field and keeps the others |
| FormFiller.Filler.ResetForm | aarambam-frontend/src/pages/FormFiller.jsx:76-80 | everything is cleared |
| ScamShield.IsSuspicious | aarambam-frontend/src/pages/ScamShield.jsx:17-18 | no text shorter than six characters, the shortest keyword, is flagged |
| ScamShield.SuspiciousIffKeyword | aarambam-frontend/src/pages/ScamShield.jsx:17-18 | a text is suspicious iff its lowercase form contains one of the four keywords |
| ScamShield.Analyse | aarambam-frontend/src/pages/ScamShield.jsx:16-38 | danger (score 15, three flags) iff suspicious; safe (score 98, no flags) otherwise |
| ScamShield.AnalyseIgnoresCase | aarambam-frontend/src/pages/ScamShield.jsx:17 | letter case does not change the verdict |
| ScamShield.TypicalScamIsDanger | aarambam-frontend/src/pages/ScamShield.jsx:18 | "Your KYC Suspended. Click Here now" is flagged as danger |
| ScamShield.Checker.constructor | aarambam-frontend/src/pages/ScamShield.jsx:6-8 | empty text, idle, no result |
| ScamShield.Checker.HandleAnalyze | aarambam-frontend/src/pages/ScamShield.jsx:10-16 | blank text starts nothing; otherwise the status is 'analyzing' and the text is captured for the timer |
| ScamShield.Checker.AnalysisDone | aarambam-frontend/src/pages/ScamShield.jsx:16-38 | the timer sets status and result from the captured text |
| ScamShield.Checker.EditText | aarambam-frontend/src/pages/ScamShield.jsx:98-101 | typing sets the text and puts the status back to idle |
| ScamShield.Checker.Clear | aarambam-frontend/src/pages/ScamShield.jsx:108 | "Clear" empties the text only |
| Chatbot.FirstMatch | aarambam-frontend/src/components/common/Chatbot.jsx:25-36 | the chosen group is the first whose words occur in the query; none is chosen iff no group matches |
| Chatbot.MatchesAnyOne | aarambam-frontend/src/components/common/Chatbot.jsx:28 | a one-word group matches iff that word occurs |
| Chatbot.MatchesAnyTwo | aarambam-frontend/src/components/common/Chatbot.jsx:29-31 | a two-word group matches iff either word occurs |
| Chatbot.TopicOfCons | aarambam-frontend/src/components/common/Chatbot.jsx:25-36 | the first-match topic is the head group's topic if it matches, and otherwise the rest's topic |
| Chatbot.Classify | aarambam-frontend/src/components/common/Chatbot.jsx:26-35 | a question shorter than four characters, the shortest keyword, always gets the general reply |
| Chatbot.ClassifyIsFirstMatch | aarambam-frontend/src/components/common/Chatbot.jsx:25-36 | the if-chain picks the first matching keyword group in the order loan, save, scheme, scam, balance, invest |
| Chatbot.GenerateResponse | aarambam-frontend/src/components/common/Chatbot.jsx:25-36 | the reply is the canned text of the first matching topic, or the general help text |
| Chatbot.ResponseIgnoresCase | aarambam-frontend/src/components/common/Chatbot.jsx:26 | letter case does not change the reply |
| Chatbot.Chat.constructor | aarambam-frontend/src/components/common/Chatbot.jsx:7-11 | the chat starts with the greeting only |
| Chatbot.Chat.EditInput | aarambam-frontend/src/components/common/Chatbot.jsx:136 | typing or the microphone sets the input |
| Chatbot.Chat.HandleSend | aarambam-frontend/src/components/common/Chatbot.jsx:38-47 | blank input sends nothing; otherwise the question is appended, the box is cleared and a reply is queued |
| Chatbot.Chat.ReplyArrives | aarambam-frontend/src/components/common/Chatbot.jsx:48-56 | the reply to the oldest waiting question is appended after all earlier messages |
| DailyUpdates.PickIndices | aarambam-frontend/src/components/dashboard/DailyUpdates.jsx:63-65 | the picks are the day, the day plus 3 and the day plus 7, each modulo the pool size, so each is inside the pool |
| DailyUpdates.PicksDistinct | aarambam-frontend/src/components/dashboard/DailyUpdates.jsx:63-65 | with the ten-item pool the three picks differ on every day |
| DailyUpdates.TodaysNews | aarambam-frontend/src/components/dashboard/DailyUpdates.jsx:57-72 | today's list is the three picked items with ids 1, 2, 3 in pick order |
| DailyUpdates.Card.constructor | aarambam-frontend/src/components/dashboard/DailyUpdates.jsx:57-72 | mounting on a day shows that day's news with nothing playing |
| DailyUpdates.Card.HandleRead | aarambam-frontend/src/components/dashboard/DailyUpdates.jsx:74-86 | reading the item playing stops it; reading another starts it and sets a reset timer of 80 ms per character of its description |
| DailyUpdates.Card.ResetTimerFires | aarambam-frontend/src/components/dashboard/DailyUpdates.jsx:84 | the reset timer clears whatever is playing |
| CibilScore.ScoreBand | aarambam-frontend/src/pages/CibilScore.jsx:24-28 | green above 750, yellow from 651 to 750, red at 650 and below |
| CibilScore.BandMonotone | aarambam-frontend/src/pages/CibilScore.jsx:24-28 | a higher score never has a lower band |
| CibilScore.AnimateScore | aarambam-frontend/src/pages/CibilScore.jsx:9-22 | the dial shows 15, 30, … up to 780 and then exactly 785, 53 values in all; the values rise and never pass 785 |
| History.OfKind | aarambam-frontend/src/pages/History.jsx:15 | keeps exactly the entries of one kind, in order, each as often as in the list |
| History.Filtered | aarambam-frontend/src/pages/History.jsx:15 | 'All' keeps the list; 'Sent' keeps the debits; any other filter keeps the credits; always a subsequence |
| History.SentAndReceivedPartition | aarambam-frontend/src/pages/History.jsx:15 | 'Sent' and 'Received' together hold every entry exactly once |
| History.Sign | aarambam-frontend/src/pages/History.jsx:54 | '+' iff credit, '-' iff debit |
| History.OnlyElectricityFailed | aarambam-frontend/src/pages/History.jsx:8-13 | of the four entries only the electricity bill carries the "Failed" badge |
| Layout.UserName | aarambam-frontend/src/components/Layout.jsx:23-37 | the stored name when it is there and non-empty; 'Guest User' otherwise |
| Layout.FirstWord | aarambam-frontend/src/components/Layout.jsx:47 | `split(' ')[0]`: a prefix of the name with no space, ending at the first space or the end |
| Layout.FirstWordOfOneWord | aarambam-frontend/src/components/Layout.jsx:47 | a name without spaces is its own first word |
| Layout.FirstWordPrefix | aarambam-frontend/src/components/Layout.jsx:47 | the first word ends exactly at the first space |
| JsText.ReplaceFirst | aarambam-frontend/src/components/Layout.jsx:59 | `replace` with a string pattern changes nothing when the pattern is absent, and otherwise splices the replacement in at the first place `indexOf` finds |
| Layout.FallbackTitle | aarambam-frontend/src/components/Layout.jsx:59 | an unlisted path loses one character if it has a '/' and has no lowercase letter left |
| Layout.FallbackTitleValue | aarambam-frontend/src/components/Layout.jsx:59 | on a path starting with '/': the '/' is dropped, the first '-' after it becomes a space, the rest is kept, all upper-cased; with no '-' it is the rest upper-cased |
| Layout.FirstDashToSpace | aarambam-frontend/src/components/Layout.jsx:59 | "/a-d" with no '-' in a reads A, a space, then D with its own dashes kept: only the first '-' is replaced |
| Layout.ListedTitle | aarambam-frontend/src/components/Layout.jsx:48-56 | each of the nine listed paths shows its listed title |
| Layout.Title | aarambam-frontend/src/components/Layout.jsx:46-60 | the header shows the "Welcome, " greeting exactly on the home path; no listed title or fallback title can start with it |
| Layout.TitleCases | aarambam-frontend/src/components/Layout.jsx:46-60 | '/' greets the user by first name; each of the nine listed paths has its title; any other path gets the fallback |
| Layout.GuestGreeting | aarambam-frontend/src/components/Layout.jsx:23-47 | with no stored user the home title is "Welcome, Guest" |
| Layout.ActiveItems | aarambam-frontend/src/components/Layout.jsx:78-84 | a sidebar item is highlighted iff the path equals its route |
| Layout.AtMostOneActive | aarambam-frontend/src/components/Layout.jsx:78-84 | at most one item is highlighted, and none off the sidebar's routes |
| LanguageContext.Entry | aarambam-frontend/src/context/LanguageContext.jsx:16 | `translations[language]?.[key]`: the table's text when the language and the key are both present, and the falsy empty text when either is missing |
| LanguageContext.TranslatePresent | aarambam-frontend/src/context/LanguageContext.jsx:16-23 | a non-empty text in the selected language's table is what `t` returns |
| LanguageContext.Translate | aarambam-frontend/src/context/LanguageContext.jsx:14-24 | the selected language's text if non-empty, else English if non-empty, else the key |
| LanguageContext.TranslateNonEmpty | aarambam-frontend/src/context/LanguageContext.jsx:14-24 | a non-empty key never translates to empty text |
| LanguageContext.MissingFallsBackToEnglish | aarambam-frontend/src/context/LanguageContext.jsx:19-21 | a language missing a key reads it as English does |
| LanguageContext.InitialLanguage | aarambam-frontend/src/context/LanguageContext.jsx:7 | the stored language, or 'en' when none or empty |
| LanguageContext.VoiceLang | aarambam-frontend/src/context/LanguageContext.jsx:26-33 | ta, hi and mr get their "-IN" locale; every other language gets en-IN |

## Left out

- Browser storage: `localStorage` reads and writes are an abstract `stored` snapshot in `OfflineWallet`; the stored user and stored language are parameters (`Layout.StoredUser`, `LanguageContext.InitialLanguage`); the language is not written back.
- The network `online`/`offline` listeners are the `SetOnline` method; listener removal is not modelled.
- The sync effect in the wallet hook only logs; it has no state to model.
- Amounts are natural numbers in the wallet, not floats parsed with `parseFloat`; negative and fractional wallet amounts and the string-vs-number comparison in `payOffline` are not modelled.
- OfflineLedger.Token: the token spells the amount as the decimal text of the natural number, while `useOfflineWallet.js:56` embeds the amount as it was typed, so inputs such as "0100" or "99.5" appear verbatim in the source's token and are not reproduced.
- Amount inputs on the Scan & Pay and Send to Mobile screens are `AmountField.Amount` values: empty, not a number, or a real. The parsing of the text by `Number` is not modelled.
- `Date.now()`, `new Date()` and the day of the month are parameters.
- Timers are separate methods called in firing order; the debounce of the bank transfer guide is one guide tick per call, and cancelled timers are simply not called.
- Speech synthesis and recognition are not modelled as devices; recognised texts are parameters. Three spoken texts are modelled as values: the form filler's prompt after a successful extraction (`FormFiller.PromptFor`), the wizard's step instruction (`Register.InstructionFor`) and the chat reply (`Chatbot.GenerateResponse`). The other utterances are dropped: the form filler's "Scanning document" and failure messages (`FormFiller.jsx:39`, `FormFiller.jsx:70`), the bank-transfer voice guide's phrases (only its step is kept, `SendToBank.NextStep`), the contact and registration prompts, and the news item read aloud (only the length of its timer is kept).
- The form-filler upload and the registration request are not modelled: the server reply and the request body stand for them. The loading flags, `alert`, `confirm` (a parameter) and `navigate` (a returned value) are outside the model too.
- Case mapping is ASCII only: `JsText.ToLower`/`ToUpper` leave non-ASCII letters alone, and lengths count code points, not UTF-16 units.
- OfflineLedger.OfflineWallet.Restore: the saved record is taken as it is; a record whose balance does not match its log gives a wallet that is not `Valid()`, as in the source. `LoadMoney` and `PayOffline` still run on such a wallet; they then promise the step and the persistence, not the ledger invariant.
- Rendering is not modelled: the CSS classes, the dial rotation of the credit score and the progress-bar width are floating-point layout, and currency formatting (`utils/currency` is not part of this model).
- DailyUpdates.Card.ResetTimerFires: a reset timer left over from an earlier item clears the icon of a later one, as in the source; the model does not tag timers with their item.
- Chatbot.Chat.ReplyArrives: the bot message id is `now + 1` from the caller's clock; uniqueness of ids is not claimed, as in the source.
- Register.VoicePhraseOk: the transcript check is the source's loose test, not a match against the phrase the user is asked to say.
