# Puya price kiosk: lookup client and scanner slot, in Dafny

A store employee scans a QR code or barcode, or types the code by hand. The
kiosk then looks the product up in an Odoo ERP and shows its name, price and
stock. This project models the two pieces of sequential logic behind that:

- **The Odoo client** (`odoo_client.dfy`, module `Odoo`). `OdooClient` stores
  its four settings, with the URL's trailing slashes removed. `authenticate`
  logs in through `<url>/xmlrpc/2/common` and sets `uid` and `models`.
  `get_product_by_barcode` re-authenticates, searches `product.template` by
  barcode among active products, reads the ids found and shapes the first
  record read into a five-key dictionary, with defaults for missing keys.
  - The remote side is an oracle value (`Server`). It says whether an XML-RPC
    proxy can be built for a URI, and it answers each call with a value or a
    fault.
  - Every call the client sends is appended to a ghost log, so the contracts
    can say which calls are sent and which are not.
  - The pure functions `AuthenticateStep` and `LookupStep` give each
    operation's result, the new `uid`/`models` pair and the calls sent. The
    class methods are proved equal to them.
- **The configuration check** (`app_config.dfy`, module `AppConfig`).
  `validate_odoo_credentials` holds exactly when all four settings are present
  in the secrets and non-empty.
- **The scanners** (`scanning.dfy`, `barcode_scanner.dfy`,
  `barcode_scanner_auto.dfy`). Each scanner class holds one slot,
  `last_barcode`. A freshly decoded code is accepted only when it is truthy and
  differs from the slot. Accepting it overwrites the slot, and
  `reset_scanner` clears it.
  - The QR-only decoder (`QrScanner`) trims the detector's text and drops it
    when blank.
  - The QR-and-barcode decoder (`AutoScanner`) returns QR text as it is.
    Otherwise its loop returns the first barcode with non-empty data.
  - `scan_with_fallback` prefers the automatic result. Otherwise it returns
    the trimmed manual text, but only when the button was pressed and the
    text is not blank.
- **Python's `str.strip()` and `str.rstrip('/')`** (`text.dfy`, module `Text`),
  with Python's set of Unicode whitespace characters.

Inputs that come from outside the program are method parameters:
- A camera frame is `Option<Frame>`. It holds the QR detector's text, or None
  when the detector raised. It also holds the barcodes' data, or None when
  pyzbar raised; a single barcode is None when its bytes are not valid UTF-8.
- The manual text and whether the button was pressed.
- The `Server` oracle.
- The secrets, as a map.

Details of the code that the model keeps:
- Every failure of `get_product_by_barcode` returns None; the reason is only
  shown on screen.
- The read is sent with the whole id list the search returned; the product is
  built from the first record of the read's answer.
- A falsy uid from the server is still stored in `uid`.
- An exception raised while the object proxy is built comes after `uid` has
  been assigned. So that path returns False with `uid` set and `models`
  unchanged.

## Model

| member | source | states |
|---|---|---|
| `Odoo.OdooClient.constructor` | odoo_client.py:18-33 | the stored URL is the input with every trailing '/' removed; db, username and password are kept; `uid` and `models` are None; nothing has been sent |
| `Odoo.OdooClient.Authenticate` | odoo_client.py:35-59 | the result, the new `uid`/`models` and the calls appended are those of `AuthenticateStep` for the settings and the old fields |
| `Odoo.IsTruthy` | odoo_client.py:49 | the `if self.uid:` test: a value is falsy exactly when it is False, 0, 0.0 or the empty string |
| `Odoo.AuthenticateStep` | odoo_client.py:42-59 | True exactly when both proxies can be built and the server answers with a truthy uid, and then `uid` is that answer and `models` the object endpoint; any answer is stored in `uid`, a fault or a refused proxy leaves it as it was; `models` changes only on success; only the login call is sent, to `<url>/xmlrpc/2/common` |
| `Odoo.OdooClient.GetProductByBarcode` | odoo_client.py:61-114 | the result, the new `uid`/`models` and the calls appended are those of `LookupStep` for the settings, the old fields and the barcode |
| `Odoo.LookupStep` | odoo_client.py:61-114 | the session left is the one authentication left; the calls start with authentication's; only login, `search` and `read` on `product.template` are sent (read-only); a failed authentication returns None and sends nothing further; a product has exactly the five keys |
| `Odoo.FoundExactly` | odoo_client.py:85-108 | a product is returned if and only if authentication succeeds, the search returns a non-empty id list, and reading the whole list returns at least one record; the product is then the first record read, shaped |
| `Odoo.SearchesActiveByBarcode` | odoo_client.py:76-83 | after a successful login the next call is `search` on `product.template` with the domain `barcode = input`, `active = True` |
| `Odoo.EmptySearchSendsNoRead` | odoo_client.py:85-110 | an empty search result returns None and no `read` call is sent |
| `Odoo.EmptyReadGivesNone` | odoo_client.py:99-110 | an empty read result returns None |
| `Odoo.FaultGivesNone` | odoo_client.py:112-114 | a fault of the search, or of the read, returns None and is not passed on |
| `Odoo.LookupIgnoresEarlierSession` | odoo_client.py:71-72 | the product and the calls do not depend on the `uid`/`models` left by earlier calls, because every lookup re-authenticates |
| `Odoo.ShapeProduct` | odoo_client.py:100-108 | the dictionary has exactly the five fields the read asks for; each is the record's value when the key is present and otherwise its default ('' for name, barcode and default_code, 0.0 for list_price and immediately_usable_qty) |
| `Odoo.PresentFieldsVerbatim` | odoo_client.py:103-107 | a requested field the record has is returned unchanged |
| `Odoo.ArrozScenario` | odoo_client.py:74-108 | a catalog with "Arroz 1kg" under 7501234567890 returns its five fields, without the record's id |
| `Odoo.UnknownCodeScenario` | odoo_client.py:76-110 | on the same catalog "000" returns None after one login and one search |
| `AppConfig.GetOdooCredentials` | odoo_client.py:121-133 | each of the four settings is the secret's value when ODOO_URL, ODOO_DB, ODOO_USERNAME or ODOO_PASSWORD is present, and None when it is missing |
| `AppConfig.ValidateOdooCredentials` | odoo_client.py:128-144 | True exactly when ODOO_URL, ODOO_DB, ODOO_USERNAME and ODOO_PASSWORD are all present in the secrets and non-empty |
| `AppConfig.All` | odoo_client.py:144 | Python's `all()`: True exactly when every value is neither None nor empty |
| `AppConfig.EmptyPasswordRefused` | odoo_client.py:143-144 | an empty password makes the configuration incomplete |
| `Text.RStripChar` | odoo_client.py:28 | `rstrip(c)` gives a prefix of the input; everything it drops is `c`; the result does not end with `c` |
| `Text.Strip` | barcode_scanner.py:41-42 | `strip()` gives a result that is empty exactly when the input is all whitespace, and otherwise starts and ends with a non-space character |
| `Text.StripPadded` | barcode_scanner.py:41-42 | `strip()` removes exactly the surrounding whitespace: a core with non-space ends comes back unchanged, whatever whitespace pads it |
| `Text.StripIdempotent` | barcode_scanner.py:41-42 | stripping twice gives the same as stripping once |
| `QrScanner.DecodeQrCode` | barcode_scanner.py:20-48 | a code is returned exactly when the detector did not raise and its text has a non-space character; the code is the trimmed text, non-empty and with non-space ends |
| `QrScanner.DecodeTrims` | barcode_scanner.py:41-42 | whitespace around the detected text is removed and the core is returned unchanged |
| `QrScanner.AutoStep` | barcode_scanner.py:79-104 | no camera input returns nothing and keeps the slot; a code is returned only when it is the decoded code and differs from the slot, and it then becomes the slot; a truthy decoded code that differs from the slot is always returned; otherwise the slot is unchanged |
| `QrScanner.BarcodeScanner.constructor` | barcode_scanner.py:16-17 | a new scanner's slot is None |
| `QrScanner.BarcodeScanner.ScanBarcodeAuto` | barcode_scanner.py:50-108 | no camera input returns None and leaves the slot; otherwise the decoded code goes through the de-duplication slot (`Scanning.Accept`) |
| `QrScanner.BarcodeScanner.ScanWithFallback` | barcode_scanner.py:110-143 | a truthy automatic result is returned and the manual inputs are ignored; otherwise the manual entry is returned; the slot is what the automatic scan left |
| `QrScanner.BarcodeScanner.ResetScanner` | barcode_scanner.py:145-147 | the slot becomes None |
| `Scanning.Accept` | barcode_scanner.py:87-96 | a code is accepted exactly when it is truthy and differs from the slot, and it then becomes the slot; otherwise nothing is returned and the slot is unchanged |
| `Scanning.RepeatRefused` | barcode_scanner.py:89-96 | a code just accepted is refused when decoded again at once |
| `Scanning.ResetAcceptsAgain` | barcode_scanner.py:145-147 | after a reset any non-empty code is accepted again |
| `Scanning.RunNeverRepeats` | barcode_scanner.py:87-96 | over any series of scans no code is accepted twice in a row, the first accepted differs from the initial slot, and the slot ends holding the last accepted code |
| `Scanning.ManualEntry` | barcode_scanner.py:137-143 | a value is returned exactly when the button was pressed and the text has a non-space character, and it is the stripped text |
| `AutoScanner.FirstDecoded` | barcode_scanner_auto.py:48-54 | a result is non-empty data of one of the barcodes |
| `AutoScanner.FirstDecodedAt` | barcode_scanner_auto.py:49-52 | the first barcode whose data is not the empty string decides the result: its non-empty data, or None when its bytes are not valid UTF-8 |
| `AutoScanner.FirstDecodedAllEmpty` | barcode_scanner_auto.py:49-54 | barcodes that all carry empty data give None |
| `AutoScanner.Decoded` | barcode_scanner_auto.py:22-58 | the result is never empty; truthy QR text is returned unchanged before any barcode is looked at; any other result is one of the barcodes, reached only when the QR text was empty |
| `AutoScanner.QrVerbatim` | barcode_scanner_auto.py:44-45 | QR text with surrounding spaces is returned with them |
| `AutoScanner.DecodeQrBarcode` | barcode_scanner_auto.py:22-58 | the loop over the barcodes computes `Decoded` of the frame |
| `AutoScanner.Classify` | barcode_scanner_auto.py:103-106 | a code is labelled a QR code exactly when it is longer than 20 characters, and a barcode otherwise |
| `AutoScanner.EanIsBarcode` | barcode_scanner_auto.py:103-106 | a 13-digit EAN code is labelled a barcode |
| `AutoScanner.AutoStep` | barcode_scanner_auto.py:88-114 | no camera input returns nothing and keeps the slot; a code is returned only when it is the decoded code and differs from the slot, and it then becomes the slot; a truthy decoded code that differs from the slot is always returned; otherwise the slot is unchanged |
| `AutoScanner.AutoBarcodeScanner.constructor` | barcode_scanner_auto.py:18-19 | a new scanner's slot is None |
| `AutoScanner.AutoBarcodeScanner.ScanBarcodeAuto` | barcode_scanner_auto.py:60-118 | no camera input returns None and leaves the slot; otherwise the decoded code goes through the de-duplication slot; the label is given exactly for an accepted code |
| `AutoScanner.AutoBarcodeScanner.ScanWithFallback` | barcode_scanner_auto.py:120-153 | a truthy automatic result is returned and the manual inputs are ignored; otherwise the manual entry is returned; the slot is what the automatic scan left |
| `AutoScanner.AutoBarcodeScanner.ResetScanner` | barcode_scanner_auto.py:155-157 | the slot becomes None |

## Left out

- The XML-RPC transport and the Odoo server: they are the `Server` oracle, which answers each call with a value or a fault.
- `ServerProxy` construction is also part of the oracle (`accepts`). The model does not check URL schemes itself.
- Image handling (PIL, numpy, grayscale conversion, OpenCV's detector, pyzbar): a frame is the decoders' output, as described above.
- An exception from `Image.open` inside `scan_barcode_auto` returns None and leaves the slot unchanged. The model shows the same result through a frame whose decoders give nothing.
- Every Streamlit call (`st.markdown`, `st.success`, `st.info`, `st.warning`, `st.error`, `st.camera_input`, `st.text_input`, `st.button`, `st.spinner`) and the exceptions they could raise. Widget values are parameters. The on-screen code label is the out-parameter `kind`. All other messages are not modelled.
- `@st.cache_data` memoisation of the two decoders: a cached call returns what an uncached call would.
- `st.secrets`: it is a map parameter. Values that are not strings are not modelled.
- Prices and quantities: floats are `real` values passed through unchanged. No float arithmetic or formatting happens in the core.
- app.py (the page layout, session state and the second `last_barcode` check beside the scanner's) and barcode_scanner_simple.py are not part of this model.
