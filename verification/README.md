# Shop-management client: action creators and address resolution

A Dafny model of the two pieces of logic in the TeamPOOR web client. Everything
around them is thin React, Redux and axios code.

1. **The action-creator protocol** of `motorcycleActions.js`,
   `serviceActions.js` and `categoryActions.js`. Every creator in these files
   except `clearErrors` is a Redux thunk that does the same four things:
   - it dispatches its `*_REQUEST` action;
   - it makes one axios call with a fixed verb, path and content type;
   - on success it dispatches `*_SUCCESS` with one field of the response body,
     or with the whole body;
   - in its `catch` block it dispatches `*_FAIL` with
     `error.response.data.message`.

   The model writes this once. `Creators.Spec` is the per-creator table and
   `Lifecycle.Run` is the engine. `Run` maps an abstract network outcome to a
   trace: the ordered dispatches and calls, and how the thunk's promise
   settles. The outcome is `Ok(body)`, `HttpErr(errorBody)` or `NoResponse`.
2. **Address name resolution** in `Profile.js`. Each address record gets a
   region, province, city and barangay name. Each name is looked up in a
   directory list fetched by a code the record carries. The input order is
   kept. `Profile.FetchData` gives the next value of the page's `addressData`
   state.
3. **The profile page's mount dispatches**, chosen by the user's role
   (`Profile.MountEffect`).

JavaScript values are modelled in the `Js` module. A property read of
`undefined` or `null` throws a `TypeError`; any other missing property reads
as `undefined`. This matters for the catch blocks. When the caught error has
no `response`, reading `error.response.data` itself throws. No FAIL action is
dispatched, and the thunk's promise rejects. Reading `.message` throws the
same way when the response exists but its body is `null` or `undefined`.
So REQUEST is the only action in three cases:
- a network failure, where the error has no `response`;
- a `null` or `undefined` body on a 2xx response, for a creator that reads a
  field of the body;
- a `null` or `undefined` body on an error response.

The catch blocks have no fallback message. An error body without a `message`
field, such as an HTML error page, gives a FAIL action whose payload is
`undefined`. Likewise, for a creator that reads a field of the body, a 2xx
body that is a string, such as the empty body of a 204 reply to a delete,
gives a SUCCESS action whose payload is `undefined`. The three creators that
report the whole body report such a string as it is.

Files: `wrappers.dfy` (Option/Result), `js.dfy` (values, property reads, `Promise.all`),
`creators.dfy` (the request table), `lifecycle.dfy` (the generic thunk),
`profile.dfy` (address resolution and mount dispatches).

## Model

| member | source | states |
|---|---|---|
| Creators.Spec | src/actions/motorcycleActions.js:32-148 | Each creator's verb follows its operation: GET for list and details, POST for create, PUT for update, DELETE for delete. Exactly details, update and delete put the id in the path. A multipart content type is set exactly for create, and JSON exactly for update. Update and delete report `data.success`. |
| Creators.WholeBodyCreators | src/actions/serviceActions.js:35-52 | The SUCCESS payload is the whole response body for exactly `getAllServices`, `newService` and `createCategory`. |
| Creators.MotorcyclePayloadFields | src/actions/motorcycleActions.js:32-148 | Among motorcycle creators, `data.motorcycle` is reported exactly by create and details, `data.userMotorcycles` by `myMotorcycle`, `data.motorcycles` by `viewAllMotorcycles`, and `data.success` by update and delete. |
| Creators.ServicePayloadFields | src/actions/serviceActions.js:54-128 | Among service creators, `data.services` is reported exactly by `getAdminServices`, `data.service` by details, and `data.success` by update and delete. |
| Creators.CategoryPayloadFields | src/actions/categoryActions.js:50-123 | Among category creators, `data.categories` is reported exactly by `viewAllCategories`, `data.category` by details, and `data.success` by update and delete. |
| Creators.IdRoutes | src/actions/serviceActions.js:72-128 | Motorcycle and category details, update and delete all use one id route. Service update and delete share `/api/v1/admin/service/${id}`, and service details uses a different route. |
| Lifecycle.RequestFor | src/actions/categoryActions.js:29-123 | The request a creator sends. Its URL is the fixed path, or the route prefix followed by the id. It has a body exactly for create and update, and that body is the form data it was given. Its content type is the creator's own. |
| Lifecycle.Run | src/actions/motorcycleActions.js:32-52 | Every run dispatches REQUEST first, before the one HTTP call. At most one further action follows: it exists exactly when the promise resolves, and it carries a payload. No run ever dispatches another creator's action or a `*_RESET` action. |
| Lifecycle.ClearErrorsRun | src/actions/motorcycleActions.js:150-154 | `clearErrors` dispatches exactly one action, CLEAR_ERRORS, with no payload. It makes no HTTP call. |
| Lifecycle.ExactlyOneCall | src/actions/categoryActions.js:29-48 | Every run makes exactly one HTTP call, the creator's own request. There is no retry. |
| Lifecycle.DispatchedActions | src/actions/serviceActions.js:35-52 | A run dispatches REQUEST alone, or REQUEST followed by one SUCCESS or FAIL of the same creator. There are two actions exactly when the thunk's promise resolves. |
| Lifecycle.CatchCases | src/actions/serviceActions.js:64-69 | `Lifecycle.Catch` models the catch block. The catch block dispatches FAIL only for an error whose response body is not nullish, and then the payload is that body's `message`. For an error with no `response`, either a TypeError from the try block or a network error, the catch block itself throws and nothing is dispatched. |
| Lifecycle.DispatchCount | src/actions/motorcycleActions.js:40-50 | A second action is dispatched in exactly two cases: a 2xx response whose payload read does not throw, or an error response whose body is not nullish. |
| Lifecycle.SuccessPayloadExact | src/actions/motorcycleActions.js:40-45 | On any 2xx body that is not `null` or `undefined`, the trace is REQUEST, the call, then SUCCESS, and the promise resolves. SUCCESS carries the whole body, or else the creator's field of the body. That field is `undefined` when an object body lacks it, and always `undefined` for a string, number, boolean or array body. |
| Lifecycle.WholeBodyNeverFaults | src/actions/serviceActions.js:130-151 | A whole-body creator reports any 2xx body, even `null`, as its SUCCESS payload. |
| Lifecycle.NullishBodyOnlyRequest | src/actions/motorcycleActions.js:57-66 | Take a field-extracting creator and a `null` or `undefined` 2xx body. The try block throws, and so does the catch block. REQUEST is the only action, and the promise rejects with a TypeError. |
| Lifecycle.FailPayloadExact | src/actions/serviceActions.js:46-51 | On an error response whose body is not `null` or `undefined`, the trace is REQUEST, the call, then FAIL, and the promise resolves. FAIL carries the body's `message`. That is `undefined` when an object body lacks it, and always `undefined` for a string, number, boolean or array body. |
| Lifecycle.NullishErrorBodyOnlyRequest | src/actions/categoryActions.js:42-46 | On an error response whose body is `null` or `undefined`, reading `.message` throws. REQUEST is the only action. |
| Lifecycle.NoResponseOnlyRequest | src/actions/motorcycleActions.js:46-50 | When the caught error has no `response`, evaluating the FAIL payload throws. REQUEST is the only action dispatched, and the promise rejects. |
| Lifecycle.EmptyDeleteResponseExample | src/actions/motorcycleActions.js:137-141 | A delete answered with an empty string body, as a 204 reply gives, dispatches SUCCESS with an `undefined` payload. |
| Lifecycle.HtmlErrorPageExample | src/actions/motorcycleActions.js:103-107 | An update rejected with an HTML error page, a string body, dispatches FAIL with an `undefined` payload. |
| Lifecycle.InvalidPlateNumberExample | src/actions/motorcycleActions.js:103-107 | A rejected update whose server body is `{ message: "Invalid plate number" }` dispatches FAIL with that message. |
| Profile.FirstMatch | src/components/user/Profile.js:61-64 | The position `find` stops at is the first entry whose code equals the record's code. There is none exactly when no entry matches. |
| Profile.FindName | src/components/user/Profile.js:61-64 | A resolved name is undefined exactly when no entry's code matches. Otherwise it is the name of the first matching entry. |
| Profile.Enrich | src/components/user/Profile.js:59-65 | The enriched record keeps every original property. It adds only `regionName`, `provinceName`, `cityName` and `barangayName`, and holds the given names under them. |
| Profile.Resolve | src/components/user/Profile.js:49-66 | A record resolves exactly when it is not nullish and all four directory calls succeed. Each call is keyed by the record's own code: provinces by the region code, cities by the province code, barangays by the city code. Each name is the first match for that level's own code. The barangay is matched on the record's `barangay` field. |
| Js.PromiseAll | src/components/user/Profile.js:49-66 | `Promise.all` over the mapped callbacks resolves exactly when every callback resolves, to a list of the input's length whose element i is callback i's value. When it rejects, its reason is that of a rejecting callback all of whose predecessors resolve. |
| Js.PromiseAllOfResolved | src/components/user/Profile.js:49-66 | Conversely, when every callback resolves to a given list of values, `Promise.all` resolves to exactly that list. |
| Profile.ResolveAll | src/components/user/Profile.js:49-67 | The batch resolves exactly when every record resolves. Its output has the input's length and order, and element i is record i's own resolution. |
| Profile.FetchData | src/components/user/Profile.js:47-69 | `addressData` is left unchanged in three cases: the address list is absent, it is empty, or any record's resolution rejects. Otherwise the new `addressData` is the resolved list, in input order. |
| Profile.MissDoesNotBlockDeeperLevels | src/components/user/Profile.js:54-64 | When the region code has no match, `regionName` is undefined. `cityName` is still the name of the first city whose code matches. |
| Profile.PartialResolutionExample | src/components/user/Profile.js:54-67 | In a batch, a record whose barangay code is not listed keeps its three upper names and gets an undefined barangay name. The batch does not fail, and the other record is fully resolved. |
| Profile.ConditionalDispatches | src/components/user/Profile.js:78-87 | After the first four, `allOrders` is chosen exactly when the role is "admin", `listOrders` exactly when it is "secretary", and the address `clearErrors` exactly when the error is truthy. No thunk is chosen twice, and `clearErrors`, when chosen, comes last. |
| Profile.MountEffect | src/components/user/Profile.js:73-87 | `myAddresses`, `myMotorcycle`, `myFuel` and `myOrders` are always dispatched first, in that order. `allOrders` is dispatched exactly when the role is "admin". `listOrders` is dispatched exactly when the role is "secretary". The address `clearErrors` is dispatched exactly when the error is truthy. No thunk is dispatched twice. When `clearErrors` is dispatched, it is the last dispatch. A nullish user makes the effect throw right after the first four, with nothing else dispatched. |

## Left out

- Reducers and store state are not part of this model, because their files are not among the modelled ones. This covers the Idle/Pending/Succeeded/Failed lifecycle, reset, clear-error and last-to-settle behaviour.
- Lifecycle.Run: `dispatch` is assumed never to throw. If a reducer threw inside the SUCCESS dispatch (src/actions/motorcycleActions.js:42-45), the catch block would receive an error with no `response` and would itself throw at `error.response.data` (:49), so only REQUEST would be dispatched; the model does not represent this, because reducers are not part of it.
- The values of the action-type constants are not modelled, because the constants files are not part of this model. Actions are identified by creator and phase.
- axios and the server are left out. Each call is an abstract `Outcome`, and the request is recorded as a value.
- The select-philippines-address library is left out. Its four functions are given total functions from the code they are called with to a list of entries, or a rejection.
- The concurrency of `Promise.all` is modelled as a sequential map. When several records reject, the reported reason is the first in input order, not the first in time. Only "no update" is observable.
- Profile.MountEffect: it models one run of the effect. The effect runs again whenever `error` or `isUpdated` changes (src/components/user/Profile.js:94), so after `clearErrors` clears a truthy error, the four fetches and the role-chosen thunks are dispatched once more. The model does not represent this sequence of re-runs, because it does not model React's effect scheduling.
- Profile.FetchData: `fetchData` is never cancelled. When `userAddresses` changes while an earlier run is still resolving, both runs call `setAddressData`, and the one that settles last wins, even if it is the older one. The model gives the next state for one run in isolation, because it does not model the interleaving of effects (src/components/user/Profile.js:46-71).
- Profile.Resolve: spreading a string or array record would copy index keys. The model gives such records no own properties, because address records are objects.
- Js.Value: numbers are integers only (no fractions or NaN), because no modelled code does arithmetic.
- Profile.Entry: directory entries always carry string codes and names, as the library supplies them. Entries with a missing code field are not modelled.
- `user.role` and `error` are read as given. The `isUpdated` branch (toast, `setTimeout`, UPDATE_ADDRESSES_RESET) is left out, along with toasts, JSX, table rows and navigation.
- The expense totals and `toLocaleString` are left out: they are floating-point sums and locale formatting.
- `src/components/admin/Sidebar.js` is left out: it is a presentational menu.
