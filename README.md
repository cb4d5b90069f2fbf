# Rule-of-thumb reconciliation service — Dafny model

The service receives, for one camera-trap image sequence, the species a human
labelled and the species an AI labelled. It reconciles the two sets into one
agreed set and posts the result, as a "Rule of Thumb v0" analysis, to the
MammalWeb analysis API. It authenticates with a bearer token that it refreshes
once when the API answers 403.

This project models the decision logic of `API.py`:

- `common.dfy`: the `Option` wrapper, and the statuses on which `raise_for_status` raises (4xx and 5xx).
- `reconcile.dfy` (module `Reconcile`): the "AI unclassified counts as nothing" substitution, the intersection and the no-agreement fallback. `Agreed` is a pure function on sets. `ReconcileSpecies` is the imperative version, which builds the working set from the JSON lists and edits it in place.
- `token.dfy` (module `Token`): the global `MAMMALWEB_TOKEN` as a `TokenManager` class with an `Option<string>` field and a ghost count of the refreshes (`get_mw_api_token` calls) made. The reply of the credentials exchange is an input.
- `forwarder.dfy` (module `Forwarder`): the POST, the refresh on 403 and the single retry. The upstream replies are an input. The model records each POST's URL and `Authorization` header.
- `handler.dfy` (module `Handler`): the content-type check, the key lookups, the outgoing record, and the mapping of each outcome to a 200, 400 or 500 response.

Behaviour of the code worth knowing:

- A status fails only when `raise_for_status` raises, i.e. 400–599, both for the token exchange and for the upstream POST. Other non-2xx statuses (3xx, 1xx, ≥ 600) count as success.
- The retry after a 403 is posted to the bare endpoint (API.py:153). The first POST goes to `<endpoint>/analysis/ruleofthumb` (API.py:145). `Forwarder.Forward` records both URLs.
- If no token has ever been obtained, building the header raises before any POST (API.py:132). The request is then a 500 with no upstream contact and no refresh. So a service whose startup refresh failed cannot recover through requests.
- The outgoing species list has no guaranteed order (`list(set)`). The model states its elements and that none repeats; it does not sort it.
- The sentinel IDs are plain integers and need not be non-negative.

## Model

| member | source | states |
|---|---|---|
| `Reconcile.Substituted` | API.py:105-117 | If the AI set holds the unclassified ID, the working set holds the nothing ID. It no longer holds the unclassified ID unless the two IDs are equal. Every other species is in it exactly when the AI reported it. Without the unclassified ID the working set is the AI set. |
| `Reconcile.Agreed` | API.py:105-128 | The result is never empty. When some species agrees, the result is exactly the species the human saw and the AI reported (other than as unclassified), plus 'nothing' when the AI said unclassified and the human saw nothing. When no species agrees, the result is exactly the no-agreement ID. |
| `Reconcile.ReconcileSpecies` | API.py:105-128 | Working from the JSON lists, the returned list is non-empty and has no repeated species. Its elements are exactly `Agreed` of the two lists' element sets. |
| `Reconcile.PermutationInvariant` | API.py:105-121 | Two human lists with the same entries, and two AI lists with the same entries, give the same agreed set, whatever the order or repetition of entries. |
| `Reconcile.AgreedSound` | API.py:119-128 | Every species in the result is agreed by the human and the AI, counting an AI unclassified as 'nothing'. The only exception is the no-agreement ID when nothing agrees. A real species whose ID equals that sentinel is not excluded. |
| `Reconcile.DisjointMeansNoAgreement` | API.py:119-128 | Disjoint label sets yield exactly the no-agreement ID, unless the AI said unclassified and the human saw 'nothing'. |
| `Reconcile.UnclassifiedAgreesWithNothing` | API.py:106-121 | An AI 'unclassified' agrees with a human 'nothing', although the AI never named 'nothing'. |
| `Reconcile.WorkedExamples` | API.py:105-128 | With sentinels 9/10/99: {1,2,3} vs {2,4} gives {2}; {5} vs {9} gives {99}; {10} vs {9} gives {10}. |
| `Token.Granted` | API.py:64-73 | A reply grants a token exactly when the exchange was reached, its status is not 4xx/5xx, and the body has `access_token`. The token granted is that value. |
| `Token.Refreshed` | API.py:56-79 | A granted token replaces the stored one. On any failure the stored token, or its absence, is kept. |
| `Token.LastGrantWins` | API.py:70-79 | After a run of refreshes, the stored token is the one granted by the last successful refresh; later failures do not undo it. |
| `Token.NoGrantKeepsToken` | API.py:75-79 | After a run of refreshes none of which succeeded, the stored token is the starting value, absent or not. |
| `Token.TokenNeverLost` | API.py:70-79 | Once a token is held, no sequence of refreshes makes it absent again. |
| `Token.TokenManager.constructor` | API.py:72-73 | The global token is absent until a refresh first succeeds, and no refresh has been made yet. |
| `Token.TokenManager.Refresh` | API.py:56-79 | Each call is one refresh (`get_mw_api_token` call), counted whether or not the exchange was reached. The new stored token is `Refreshed` of the old one and the exchange's reply. |
| `Forwarder.Forward` | API.py:130-158 | At most two POSTs are made. None is made when no token is held. A second POST is made exactly when the first reply is 403. The first goes to `<endpoint>/analysis/ruleofthumb` with the held token. The retry follows one refresh and goes to the bare endpoint, carrying the refreshed token. The token changes only through that refresh. The record is delivered exactly when the last reply is a status that is not 4xx/5xx. |
| `Forwarder.ForbiddenTwiceFails` | API.py:146-154 | Two 403s in a row fail after exactly two POSTs; no third POST is made. |
| `Forwarder.OnlyTwoRepliesMatter` | API.py:144-154 | Forwarding is unaffected by anything the upstream would answer after the second POST. |
| `Forwarder.ForwardRecord` | API.py:130-158 | The step-by-step forwarder, which shares the token manager, yields exactly what `Forward` describes: delivery, the POSTs made and the new stored token. It makes exactly one refresh when a retry follows a 403, and none otherwise. |
| `Handler.FirstMissing` | API.py:99-103 | Reports a key only if it is the first required key, in lookup order, that the payload lacks. Reports none exactly when all keys are present. |
| `Handler.Validate` | API.py:93-103 | An absent or unlisted content type gives 400 "Incompatable MIME type.". An unparsable or non-object body gives the generic 500. A missing key gives a 400 naming the first missing key. A complete payload with integer species lists is accepted, with its fields taken over unchanged. A rejection is never a 200. |
| `Handler.BuildRecord` | API.py:135-142 | The record has origin "MammalWeb" and analysis version "Rule of Thumb v0". It echoes `ai_type`, `ai_version` and `sequence_id` unchanged. Its species are the reconciled set, non-empty and without repeats. |
| `Handler.HandleRequest` | API.py:92-169 | A rejected request gets its validation response. It makes no POST and no refresh, and leaves the token alone. An accepted one forwards as `Forward` says, with one refresh exactly when it retries. It answers 200 with the record exactly when delivery succeeded, and otherwise the generic 500. |
| `Handler.MissingSequenceIdIsClientError` | API.py:99-164 | A payload lacking `sequence_id`, with the keys before it present, gets a 400 naming `sequence_id`, not a 500. |

## Left out

- Environment-variable loading and checking (API.py:18-52) and the sentinel checks inside the handler (API.py:107-114, 124-127). A missing sentinel variable makes `.isdigit()` at API.py:21, 27 or 33 raise `AttributeError` at import, so the service never starts. A present but non-numeric one is only logged. The `abort(500)` calls at API.py:107-110 and 124-125 are dead code: a missing variable already stopped the import at API.py:21, 27 or 33. The model takes the sentinels as integer parameters. The case of a sentinel string that `int()` rejects is not modelled. It would turn some requests that pass validation into a 500: `AI_UNCLASSIFIED_ID` on every such request (API.py:106), `NOTHING_ID` only when the AI set holds the unclassified ID (API.py:117), and `CS_AI_NO_AGREEMENT_ID` only when nothing agrees (API.py:128). Requests rejected with a 400 are unaffected.
- The Flask routing, the error handlers' `"<code> <name>: <description>"` framing, `jsonify`, waitress and logging (API.py:1-14, 83-91, 172-174). Responses carry the abort description only.
- The HTTP calls themselves, the Basic-auth and form encoding of the credentials exchange, and JSON serialisation. The model takes their outcomes as inputs: `AuthReply`, `PostReply`, and a parsed `Json` body or none.
- The eager refresh at startup (API.py:173) is not a separate member. It is one `TokenManager.Refresh` call on a fresh manager.
- `Handler.Validate`: a species value that is not a list of integers gives the generic 500. The source does not always fail here. A string or an object is iterated by `set(...)`. A list of other hashable values is intersected as it is: equal strings agree (`["cat"]` against `["cat"]` gives `["cat"]` and a 200), and JSON `true` equals `1` in a Python set. A list holding a list or an object raises `TypeError` and gives the 500 the model gives. JSON numbers are modelled as integers, so `2.0 == 2` is not captured.
- `Token.Granted`: the model assumes `access_token` holds a string. A reply that passes `raise_for_status` with `"access_token": null` or a number still sets the global (API.py:73). The header then reads `"Bearer None"` or similar, and the POST is made. The model cannot express that reply, so for it `Forward` would make no POST.
- `Forwarder.Forward`: an exception while logging the failed reply's body (API.py:157) is not modelled separately. It ends in the same 500, so the response is unaffected.
- The double JSON encoding of the 200 body (API.py:160): the model returns the record itself.
- Concurrent requests sharing the token under a threaded server: each modelled request runs alone against the token manager.
