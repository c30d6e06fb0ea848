# Service broker lifecycle handler, modelled in Dafny

This project models the core of a service broker (`src/broker/broker.py`). The broker
turns each lifecycle call from the platform into one call on the backend's admin API:
provision, deprovision, bind and unbind. It resolves the backend admin configuration
from the environment, generates binding passwords, and serves a constant catalog.
The broker keeps no state. Once the backend's HTTP answer is treated as an input (its
status code), provision, unbind and deprovision are deterministic functions of the
status; bind is deterministic once its password has been drawn (`BindWithPassword`).
The model proves the decision rules these handlers follow.

Modules, one per concern of the source file:

- `Wrappers`: `Option`, standing for Python's `None`.
- `Decimal`: Python's `str()` of an `int`. It is used to write the link document's port
  into the backend URL, and it is proved to round-trip through a decimal reading.
- `DbConfiguration`: `get_db_configuration`. The environment is a `map<string, string>`.
  A variable that is missing or empty counts as unset, following Python truthiness.
  The link document comes in parsed, and `None` stands for a document on which any of
  the reads at `src/broker/broker.py:20-23` raises. `Configuration` is the slot-wise specification.
  `GetDbConfiguration` is the imperative list update of the source, proved equal to it.
- `Secret`: the 62-symbol charset and `generate_random`. Each random choice is a
  nondeterministic pick from the charset.
- `ServiceCatalog`: the constant catalog document.
- `Lifecycle`: the four handlers. Each returns an `Exchange`: the backend request
  (verb, URL, optional credentials payload) and the response (status, body).
  `BindWithPassword` is the bind handler after the password is drawn.
  `BindInstance` draws the password and then calls it.

Notes on the code as modelled:

- `get_db_configuration` is modelled as part of the core.
- `db_url` may be `None` when nothing configures it. Python's `"{}".format(None)` then
  gives `"None/api/admin/bucket/..."`. The handlers take the url slot as an `Option`
  and reproduce this (`Lifecycle.Str`).
- A backend status counts as rejected when it is `> 299`, as the code tests it.
  On integers this is the same as `>= 300`.

## Model

| member | source | states |
|---|---|---|
| `Decimal.NatToDecimal` | src/broker/broker.py:21 | `str(port)` of a non-negative port is non-empty and all digits, and starts with '0' only for 0 |
| `Decimal.NatRoundTrip` | src/broker/broker.py:21 | reading the numeral of a non-negative port gives back the port |
| `Decimal.IntToDecimal` | src/broker/broker.py:21 | `str(port)` starts with '-' exactly when the port is negative |
| `Decimal.IntRoundTrip` | src/broker/broker.py:21 | `str(port)` of any int is a well-formed integer literal that parses back to the port |
| `Decimal.IntToDecimalInjective` | src/broker/broker.py:21 | distinct ports give distinct numerals |
| `DbConfiguration.GetDbConfiguration` | src/broker/broker.py:15-32 | the step-by-step overwrite of `[None, None, None]` yields the slot-wise specification `Configuration` |
| `DbConfiguration.FailsOnlyOnMalformedLink` | src/broker/broker.py:18-23 | resolution fails exactly when both link variables are set and the link document is malformed; otherwise it yields three slots |
| `DbConfiguration.OverrideDeterminesSlot` | src/broker/broker.py:26-31 | a set DB_ADMIN_USERNAME / DB_ADMIN_PASSWORD / DB_URL is the value of its slot, whatever the link document says |
| `DbConfiguration.OverridesAreIndependent` | src/broker/broker.py:26-31 | changing one override variable changes no other slot and does not change whether resolution succeeds |
| `DbConfiguration.NothingSetGivesNone` | src/broker/broker.py:17-32 | with no link pair and no overrides the result is `[None, None, None]` |
| `DbConfiguration.UrlFromLinkOnly` | src/broker/broker.py:18-24 | without DB_URL, the url slot is filled iff both SPACEBEARS_HOST and SPACEBEARS_PROPERTIES are set, and then holds `"http://" + host + ":" + str(port)` |
| `DbConfiguration.LinkUrlDeterminesPort` | src/broker/broker.py:21 | for a fixed host, the link URL determines the port |
| `Secret.CharsFromAt` | src/broker/broker.py:38 | the i-th character of a contiguous character range is the first character plus i |
| `Secret.CharsFromMembership` | src/broker/broker.py:38 | a character is in a contiguous range iff its code lies between the range's bounds |
| `Secret.CharsetSize` | src/broker/broker.py:38 | the charset has 62 symbols, the first of them 'A', so a choice from it always exists |
| `Secret.CharsetIsAlphanumeric` | src/broker/broker.py:38 | a character is in the charset exactly when it is one of A–Z, a–z and 0–9 |
| `Secret.CharsetDistinct` | src/broker/broker.py:38 | no symbol occurs twice in the charset |
| `Secret.GenerateRandom` | src/broker/broker.py:37-39 | the secret has length 20 and every character is drawn from the charset, hence alphanumeric |
| `ServiceCatalog.BrokerCatalog` | src/broker/broker.py:49-65 | the catalog is well formed (unique non-empty ids, every service has a plan) and holds one bindable service with id `c084b262-…` and exactly one plan with id `30f7be98-…` |
| `Lifecycle.ProvisionInstance` | src/broker/broker.py:70-79 | sends POST to `db_url + "/api/admin/bucket/" + id` with no body; replies 500 `{}` iff the status is > 299, and otherwise 201 `{}` |
| `Lifecycle.BindWithPassword` | src/broker/broker.py:86-104 | sends PUT `{username: binding_id, password: p}` to the credentials path; replies 500 `{}` iff the status is > 299; otherwise 201 with username = binding id, password = the `p` sent, uri = `db_url + "/api/bucket/" + id` |
| `Lifecycle.BindInstance` | src/broker/broker.py:84-104 | the password sent is 20 alphanumeric characters; on success the reply carries that same password, the binding id and the bucket URI; on failure it is exactly 500 `{}` |
| `Lifecycle.UnbindInstance` | src/broker/broker.py:109-121 | sends DELETE `{username: binding_id}` to the credentials path; replies 500 `{}` iff the status is > 299, and otherwise 200 `{}` |
| `Lifecycle.DeprovisionInstance` | src/broker/broker.py:126-135 | sends DELETE with no body to the bucket path; replies 500 `{}` iff the status is > 299, and otherwise 200 `{}` |
| `Lifecycle.RepliesSeeOnlyRejection` | src/broker/broker.py:75-135 | a reply depends on the backend status only through the 299/300 boundary, for all four handlers; a failed bind reply is the same for every password and every rejecting status |
| `Lifecycle.StatusBoundary` | src/broker/broker.py:75-135 | status 299 succeeds and status 300 fails, in every handler |
| `Lifecycle.RemovalUndoesCreation` | src/broker/broker.py:71-129 | deprovision deletes the URL provision posted; unbind deletes, with the same username and no password, the credentials URL bind put |
| `Lifecycle.CredentialsUnderBucket` | src/broker/broker.py:90 | the credentials path is the bucket path followed by `/credentials` |
| `Lifecycle.AdminUrlsSeparateInstances` | src/broker/broker.py:71-127 | for a fixed `db_url`, distinct instance ids give distinct bucket paths, credentials paths and URIs |
| `Lifecycle.BucketUriIsNotAdminPath` | src/broker/broker.py:90-102 | the URI handed to the application is never an admin bucket or admin credentials path |

## Left out

- Flask plumbing is not modelled: routing, the `/health` route, the 500 error handler and `app.run`. It is framework code.
- The `auth.requires_auth` gate is not modelled. The `auth` module is not part of this model.
- The `requests` calls are not modelled beyond their status code, which each handler takes as a parameter. This leaves out the Basic auth pair, `verify=False`, and network failures. A network failure raises in the source and reaches Flask's generic 500 handler.
- The admin username and password slots are resolved but not threaded into the requests, since Basic auth is left out. The handlers take only the url slot; the module-level unpacking at line 34 is therefore not modelled.
- JSON encoding is not modelled: `json.dumps`, `indent=4` and byte-exact bodies. Bodies are structured values; `EmptyObject` is `"{}"`.
- The `Content-Type` header is not modelled. The four lifecycle handlers attach `application/json; charset=utf-8` to every response; the catalog route (src/broker/broker.py:65) sets no header and is served with Flask's default type.
- Parsing SPACEBEARS_PROPERTIES with `json.loads` is not modelled. The parsed `spacebears` entry is an input, with `None` for a document on which any of the reads at src/broker/broker.py:20-23 raises (not JSON, not an object, or a missing key). Its username and password are taken to be strings and its port an int.
- The randomness source is not modelled. This covers `random.SystemRandom`'s uniformity and strength, and the claim that passwords do not repeat across bindings. Only the length and charset of the secret are proved.
- The `print` logging calls are not modelled.
- `src/spacebears/config/config.go` is not part of this model. It only declares defaults for an external configuration library.
