# Tipping and events core, modelled in Dafny

This project models three parts of a React Native app that lets a user tip
the author of a post in SOL, signing through an external mobile wallet.

- **The tip request pipeline (`useTipping`)**:
  - `parseSolAmount`;
  - the ordered guards of `sendTip`: wallet connected, amount valid, not a tip to oneself, balance covers the tip, balance covers tip plus the 5000-lamport fee, then build, sign and send;
  - the classification of a wallet failure into the error `sendTip` rejects with.
- **The tipping modal (`TippingModal`)**:
  - its five pieces of state and the handlers that change them;
  - the mapping from a caught error to the text shown;
  - the Send button's disabled state and label.
- **The event hooks (`useEvents`, `useEventSearch`)**:
  - reading fetched documents as events, with defaults for missing fields;
  - `normalizePublicKey`;
  - the membership filter;
  - the four-character id-prefix search;
  - the loading, searching and error state the hooks keep.

Everything these files await or build outside themselves is an input of the model:
- `parseFloat` of the typed amount;
- decoding the recipient's public key;
- the balance query, the transaction builder and the wallet's sign-and-send call;
- the Firestore snapshot.

The number `parseFloat` reads is a plain `Number`. Every other input is a `Call<T>`: it either returns a value or throws a value.

JavaScript values are modelled explicitly in `JsValues`:
- Numbers are NaN, ±Infinity or an exact real.
- A thrown value is an `Error` with a message or some other value.

`JsStrings` defines `includes`, `startsWith`, `trim` (over the full ECMAScript whitespace set), ASCII `toLowerCase`, and `toFixed(4)` over exact reals.

Files:
- `js_values.dfy` (module `JsValues`)
- `js_strings.dfy` (module `JsStrings`)
- `use_tipping.dfy` (module `Tipping`)
- `tipping_modal.dfy` (module `TippingModal`)
- `events.dfy` (module `Events`)

`sendTip` is a function returning the outcome together with the list of network calls it made. So "before any network call" is stated as an empty call list.

`handleTip` is split at its `await` into `BeginTip` and `FinishTip`. While the modal is between the two, the state shows `isProcessing`, and the Send button and dismissal respond to it.

## Model

| member | source | states |
|---|---|---|
| JsValues.ComparisonsOnFinite | components/solana/use-tipping.ts:11-14 | `<` and `<=` on finite numbers are the order on reals, and any comparison with NaN is false. |
| Tipping.ParseSolAmount | components/solana/use-tipping.ts:9-18 | NaN and amounts ≤ 0 fail as invalid. A positive amount under 0.001 fails with the minimum-tip error and never as invalid. Any amount ≥ 0.001 (including +Infinity) is accepted and returned unchanged. |
| Tipping.SendTip | components/solana/use-tipping.ts:27-98 | Without an account it fails with "not connected" and makes no call. An invalid or too small amount fails next, with no call. "Not connected" occurs only without an account. A key the decoder rejects fails with its thrown value, without a call. A tip to oneself fails exactly when the checks before it pass and the recipient is the sender, before the balance query. The network is used only after every local check passed. The only call sequences are [], [balance], [balance, build] and [balance, build, sign]. A failing balance query or builder is passed through with its thrown value. Once the balance is known, "insufficient balance" holds exactly when it does not cover the tip, and the fee error exactly when it covers the tip but not tip plus fee. Both carry the observed balance, and the fee error the required total. The transaction is built and signed only when the balance covers tip plus fee. The tip succeeds exactly when every local check passes, the balance covers tip plus fee, and the balance query, builder and wallet all return. A signer failure is classified. A receipt carries the wallet's signature, the parsed amount, `from` = the selected account and `to` = the recipient. |
| Tipping.ThrownBy | components/solana/use-tipping.ts:29-97 | Gives the value `sendTip` rejects with for each error. Everything except the three errors passed through from the key decoder, the balance query and the builder is an `Error`. |
| Tipping.SolText | components/solana/use-tipping.ts:49-53 | A lamport amount shown in SOL is a non-empty string of digits and a dot. |
| Tipping.FirstMatch | components/solana/use-tipping.ts:85-94 | Returns the result of the first rule whose pattern the message includes. It returns none exactly when no pattern is included. |
| Tipping.ClassifySignerFailure | components/solana/use-tipping.ts:82-97 | A non-`Error` becomes the unknown failure, and only a non-`Error` does. Every result is one of the six wallet failures. A generic failure keeps the original message. |
| Tipping.SignerClassificationFollowsRules | components/solana/use-tipping.ts:85-97 | The classification equals the first-match reading of the ordered rules "CancellationException", "User rejected", "timeout", "insufficient". A generic failure's message matches none of them. |
| Tipping.IsConnected | components/solana/use-tipping.ts:106 | A wallet counts as connected exactly when an account is selected. |
| Tipping.BalanceChecksAreExclusive | components/solana/use-tipping.ts:43-58 | Covering tip plus fee implies covering the tip. Once the local checks pass and the balance is known, `sendTip` gives the tip error, the fee error or builds the transaction, each exactly when its balance condition holds. |
| Tipping.InfiniteAmountNeverSent | components/solana/use-tipping.ts:43-50 | +Infinity passes validation but always fails, and never reaches the wallet. |
| Tipping.FeeErrorTotalNonNegative | components/solana/use-tipping.ts:52-54 | The required total in the fee error is never negative. |
| Tipping.HalfSolTipSucceeds | components/solana/use-tipping.ts:72-81 | A 0.5 SOL tip from a 2 SOL balance to someone else succeeds with the wallet's signature after all three calls. |
| TippingModal.DisplayedError | components/tipping/tipping-modal.tsx:68-81 | A non-`Error` shows "Failed to create tip". An `Error` shows its own message or one of the three rewordings. |
| TippingModal.DisplayFollowsRules | components/tipping/tipping-modal.tsx:68-81 | The display equals the first-match reading of the rules "cancelled", "rejected", "timeout", "insufficient", so "cancelled" wins over "rejected", which wins over "timeout". Any other `Error` message is shown verbatim. |
| TippingModal.FailedPrefixTransparent | components/tipping/tipping-modal.tsx:70-75 | The "Transaction failed: " prefix never triggers a rewording. Only the wallet's own message can. |
| TippingModal.TimedOutMessageNamesNoTimeout | components/tipping/tipping-modal.tsx:74 | The text `sendTip` uses for a wallet timeout does not contain "timeout". |
| TippingModal.UserSees | components/tipping/tipping-modal.tsx:55-83 | The per-error table of shown texts. Apart from the three pass-through errors, the wallet's rejection and a generic wallet failure, every error is shown as `sendTip` words it. A generic wallet failure shows its prefixed message or one of the three rewordings. A rejection is reworded. |
| TippingModal.WhatTheUserSees | components/tipping/tipping-modal.tsx:55-83 | For every error `sendTip` can reject with, the text the modal shows equals the per-error table `UserSees`. |
| TippingModal.RewordingOfWalletTexts | components/tipping/tipping-modal.tsx:70-75 | For a cancelled or timed-out signing the user sees exactly `sendTip`'s own text. For a rejection the modal shows a different text. |
| TippingModal.TippingModal.constructor | components/tipping/tipping-modal.tsx:19-27 | The initial state: empty amount, not processing, no error, no confirmation, no details. |
| TippingModal.TippingModal.SetTipAmount | components/tipping/tipping-modal.tsx:203-204 | Typing replaces the amount and nothing else. |
| TippingModal.TippingModal.PickQuickAmount | components/tipping/tipping-modal.tsx:218-224 | A quick-tip button puts its amount's text into the field and changes nothing else. |
| TippingModal.TippingModal.BeginTip | components/tipping/tipping-modal.tsx:39-47 | Not connected: sets the "connect your wallet" error and leaves every other field unchanged. Connected: starts processing and clears the error. |
| TippingModal.TippingModal.FinishTip | components/tipping/tipping-modal.tsx:55-86 | A receipt sets the details {signature, amount, recipient := to} and shows the confirmation. A failure sets the error to `UserSees` of it. Processing ends either way, and the amount is kept. |
| TippingModal.TippingModal.HandleTip | components/tipping/tipping-modal.tsx:39-87 | Not connected: only the error changes. Connected: processing is off afterwards, and the outcome of `SendTip` is either shown in the confirmation or displayed as `UserSees` of the error. The key `sendTip` decodes is the poster's. |
| TippingModal.TippingModal.HandleDismiss | components/tipping/tipping-modal.tsx:89-97 | While processing it changes nothing and does not ask to close. Otherwise it resets amount, error, confirmation and details, and asks to close. |
| TippingModal.TippingModal.HandleConfirmationClose | components/tipping/tipping-modal.tsx:99-103 | Clears confirmation and details, keeps amount, processing and error, and always asks to close. |
| TippingModal.TippingModal.SendDisabled | components/tipping/tipping-modal.tsx:251 | The button is enabled exactly when not processing, connected, and the amount has a non-whitespace character. |
| TippingModal.TippingModal.SendLabel | components/tipping/tipping-modal.tsx:255 | "Processing..." while processing. Otherwise "Connect Wallet" when not connected, else "Send Tip". |
| TippingModal.TippingModal.EnabledButtonSendsTip | components/tipping/tipping-modal.tsx:248-256 | An enabled button is labelled "Send Tip". The "Connect Wallet" button is always disabled, so the button never starts a tip without a wallet. |
| TippingModal.TippingModal.ShowsConfirmation | components/tipping/tipping-modal.tsx:115 | The confirmation is shown only with details present. Under the class invariant it is shown exactly when the flag is set. |
| Events.ToEvent | hooks/use-events.ts:27-32 | A missing name or description reads as "", and missing members as []. Present fields and the id are kept. |
| Events.ToEventOfFullDoc | hooks/use-events.ts:27-32 | A document holding every field reads back as the event written into it. One holding none reads as an event with empty fields. |
| Events.ToEvents | hooks/use-events.ts:27-32 | Reads every document, in order. |
| Events.NormalizePublicKey | hooks/use-events.ts:12-14 | The result neither starts nor ends with whitespace, and every character is already lower case. |
| Events.NormalizeIdempotent | hooks/use-events.ts:12-14 | Normalizing twice equals normalizing once. |
| Events.NormalizeIgnoresPadding | hooks/use-events.ts:12-14 | Any whitespace before and after a key leaves its normal form unchanged. |
| Events.Any | hooks/use-events.ts:39-42 | `.some` is true exactly when some element passes the test. |
| Events.IsMember | hooks/use-events.ts:39-42 | The `.some` test over an event's members with the normalized user key. |
| Events.IsMemberMeans | hooks/use-events.ts:37-43 | An event counts as the user's exactly when some member's normal form equals the normal form of the user's key. |
| Events.PaddedMemberStillMatches | hooks/use-events.ts:37-42 | A member stored as the user's key with any whitespace before and after it still matches the user. |
| Events.Filter | hooks/use-events.ts:38-44 | Keeps exactly the elements passing the test, each as often as it occurs. |
| Events.FilterIsSubsequence | hooks/use-events.ts:38-44 | The filtered list is a subsequence of the input, so fetched order is kept. |
| Events.VisibleEvents | hooks/use-events.ts:27-47 | The events `fetchEvents` keeps are at most as many as the documents, are all read from them, and with a key every one has the user as a member. |
| Events.UnfilteredWithoutKey | hooks/use-events.ts:34 | With no key or the empty key every fetched event is returned, in order. |
| Events.VisibleEventsAreMemberships | hooks/use-events.ts:34-44 | With a key, the result holds exactly the fetched events having a member whose normal form equals the key's. Multiplicities and fetched order are kept. |
| Events.SearchMatches | hooks/use-events.ts:85-92 | At most as many results as documents, each read from one of them and with an id starting with the prefix. |
| Events.SearchMatchesArePrefixMatches | hooks/use-events.ts:85-92 | The result holds exactly the fetched events whose id starts with the prefix. Multiplicities and fetched order are kept. |
| Events.SearchFindsCode | hooks/use-events.ts:85-92 | A document whose id extends the prefix is found with defaults filled in. One whose id does not is left out. |
| Events.EventsState.constructor | hooks/use-events.ts:17-19 | Initially no events, loading, no error. |
| Events.EventsState.FetchEvents | hooks/use-events.ts:21-57 | Loading ends false. On success the events are the visible events for the hook's key and the error is cleared. On failure the error is "Failed to load events" and the events are unchanged. |
| Events.EventSearchState.constructor | hooks/use-events.ts:67-69 | Initially no results, not searching, no error. |
| Events.EventSearchState.SearchEventsByIdPrefix | hooks/use-events.ts:71-101 | A prefix whose length is not 4 (including the empty one) clears results and error, does not fetch, and leaves `searching` unchanged. Otherwise it fetches, and `searching` ends false. Success gives exactly the prefix matches. Failure sets "Failed to search events" and keeps the old results. |

## Left out

- `parseFloat`: the number read from the amount text is an input. How text becomes a number is not modelled.
- Floating point: `amount * 1e9`, the `+ 5000` and the division in the messages are computed on exact reals. IEEE-754 rounding is not modelled.
- Tipping.SolText: models `toFixed(4)` on exact reals, rounding a tie up. It does not model exponent notation at or above 1e21 or the binary representation of the value.
- `new PublicKey(...)`: decoding is an input that returns the key's text or throws. The self-tip test compares those texts, not key bytes.
- The transaction the builder makes, and what the wallet is asked to sign (amount, destination, `minContextSlot`): only whether each call returns or throws is modelled.
- components/solana/use-mobile-wallet.tsx, create-transaction and the connection provider are not part of this model. Signing is a single call whose outcome is an input.
- Wallet sessions: each `signAndSendTransaction` call opens its own `transact` session and calls `authorizeSession` in it (components/solana/use-mobile-wallet.tsx:37-39). That file keeps no session and has no retry or queue. How `authorizeSession` uses a stored authorization is outside the modelled files and is not modelled. Network failures reach `sendTip` as the raw thrown value, and "cancelled" is an ordinary `Error` text.
- `joinEvent` (Firestore `updateDoc` with `arrayUnion`) and the Firestore reads themselves are left out. A read's snapshot is an input.
- Events.ToEvent: a stored field is either a value of the expected type or missing. A field present with another falsy value (`0`, `false`) or of another type is not modelled.
- Events.NormalizePublicKey: lower-cases ASCII letters only. JavaScript's full Unicode case mapping is not modelled; Solana keys are base58, which is ASCII.
- Events.EventSearchState.SearchEventsByIdPrefix: counts the prefix length in Unicode scalar values, not UTF-16 code units.
- Events.EventsState.FetchEvents and Events.EventSearchState.SearchEventsByIdPrefix: each runs as one step. The intermediate state while the snapshot is awaited (`loading`/`searching` true) is set but not observable.
- React scheduling: the `useEffect` that refetches when the key changes, and any interleaving of concurrent handler calls.
- Rendering and styling, the clipboard (`handleCopy`), `console` output and `ellipsify`.
