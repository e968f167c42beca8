# Stereo camera controller: a Dafny model

This project models the decision logic of a controller for a pair of Sony cameras. The controller drives the cameras through the Camera Remote SDK and exposes them over a small HTTPS API. The modelled parts are:

- **`CrSDKInterface`** (`crsdk_interface.dfy`)
  - the camera list and the per-camera cache of exposure modes (`"m"` manual, `"p"` program);
  - the left/right reordering after connecting;
  - the mode switches and mode queries;
  - the brightness encoding: a value 0..48 becomes a shutter index and an ISO code;
  - AF-area packing: `(x << 16) | y`;
  - setting download and upload;
  - the disconnect/release teardown.

  The class keeps `cameraList` and `cameraModes` as sequence fields updated in place. Every device call it issues is appended to `log`. The device's own replies are method parameters: whether a setter was accepted, which mode the camera reports, whether a release finished in time.
- **`HttpsServer`** (`https_server.dfy`)
  - every route handler as a pure function, from the query parameters and a `Context` to a `Response`;
  - the response carries its status, its body, and the interface call it made, if any.

  The `Context` holds the camera count, the cached modes, the interface call's result and the mode string.
- **`ShutterSpeedConverter`** and **`IsoConverter`**: the two lookup tables, their inverses, and the string/value conversions.
  - The shutter conversion also cleans its input: it keeps digits and '.', then re-inserts the slash.
  - The shared table facts (distinctness, map construction and inversion) are in **`Tables`**.
- **`ConfigReader`**: the `key=value` reader, over the file's lines. Each line is split at its first '='. The last line setting a key wins.
- **`CameraSerialNumbers`**: the first-match search for a Sony camera's serial number over a USB device list, and the manager class that holds the left and right serial numbers.
- **`GpioPins`**: the GPIO pin's mode-name recognition, its direction names, and the sequence of library calls each operation issues.

## Model

| member | source | states |
|---|---|---|
| Tables.MapOf | src/Converters/shutter_speed_converter/shutter_speed_converter.cpp:6-42 | a table of distinct strings maps each string to its own index and nothing else |
| Tables.Invert | src/Converters/shutter_speed_converter/shutter_speed_converter.cpp:44-48 | the inversion loop over an injective table yields its exact inverse |
| Tables.InverseUnique | src/Converters/iso_converter/iso_converter.cpp:47-50 | an injective table has only one inverse |
| Tables.IndexedInverse | src/Converters/iso_converter/iso_converter.cpp:47-50 | the index-to-string map is defined exactly on 0..n-1 and gives each index's string |
| Tables.IndexedInverseIsInverse | src/Converters/shutter_speed_converter/shutter_speed_converter.cpp:6-48 | a table built from distinct strings is injective, and the index-to-string map is its inverse |
| ShutterSpeedConverter.TableWellFormed | src/Converters/shutter_speed_converter/shutter_speed_converter.cpp:6-42 | the shutter table has 34 strings, all distinct |
| ShutterSpeedConverter.TableShape | src/Converters/shutter_speed_converter/shutter_speed_converter.cpp:8-41 | every table string is "1/" followed by at least one digit |
| ShutterSpeedConverter.BuildValueToShutter | src/Converters/shutter_speed_converter/shutter_speed_converter.cpp:44-48 | the constructor's loop builds the exact inverse of `shutter_to_value` |
| ShutterSpeedConverter.Clean | src/Converters/shutter_speed_converter/shutter_speed_converter.cpp:53-60 | the cleaned string is no longer than the input and holds only digits and '.' |
| ShutterSpeedConverter.WithSlash | src/Converters/shutter_speed_converter/shutter_speed_converter.cpp:63 | a '/' is inserted after the first character and everything else is kept in order |
| ShutterSpeedConverter.ShutterValue | src/Converters/shutter_speed_converter/shutter_speed_converter.cpp:52-74 | the result is -1 exactly when the cleaned, re-slashed string is not in the table; otherwise it is that string's index |
| ShutterSpeedConverter.ShutterStringToValue | src/Converters/shutter_speed_converter/shutter_speed_converter.cpp:52-74 | the character loop followed by the insert and the lookup computes `ShutterValue` |
| ShutterSpeedConverter.ShutterValueToString | src/Converters/shutter_speed_converter/shutter_speed_converter.cpp:77-89 | the table string for 0..33 and "" for any other value |
| ShutterSpeedConverter.CleanAppend | src/Converters/shutter_speed_converter/shutter_speed_converter.cpp:53-60 | cleaning distributes over concatenation |
| ShutterSpeedConverter.CleanKept | src/Converters/shutter_speed_converter/shutter_speed_converter.cpp:53-60 | a string of digits and '.' is unchanged by cleaning |
| ShutterSpeedConverter.CleanNoise | src/Converters/shutter_speed_converter/shutter_speed_converter.cpp:53-60 | a string with no digit and no '.' cleans to the empty string |
| ShutterSpeedConverter.NormalisesSlashed | src/Converters/shutter_speed_converter/shutter_speed_converter.cpp:53-63 | cleaning "1/digits" and re-inserting the slash gives back the same string |
| ShutterSpeedConverter.NormalisesTableString | src/Converters/shutter_speed_converter/shutter_speed_converter.cpp:6-63 | each table string survives the cleaning and slash insertion unchanged |
| ShutterSpeedConverter.ValueRoundTrip | src/Converters/shutter_speed_converter/shutter_speed_converter.cpp:52-89 | for every v in 0..33, converting v to its string and back gives v |
| ShutterSpeedConverter.StringRoundTrip | src/Converters/shutter_speed_converter/shutter_speed_converter.cpp:52-89 | a string the lookup finds converts back to its normalised form |
| ShutterSpeedConverter.CleanIgnoresNoise | src/Converters/shutter_speed_converter/shutter_speed_converter.cpp:54-60 | inserting characters other than digits and '.' anywhere does not change the cleaned string |
| ShutterSpeedConverter.NoiseIgnored | src/Converters/shutter_speed_converter/shutter_speed_converter.cpp:52-74 | so such characters do not change the value either |
| ShutterSpeedConverter.SuffixExample | src/Converters/shutter_speed_converter/shutter_speed_converter.cpp:52-74 | "1/250 sec" is read as "1/250", index 18 |
| IsoConverter.TableWellFormed | src/Converters/iso_converter/iso_converter.cpp:5-45 | the ISO table has 39 strings, all distinct |
| IsoConverter.BuildValueToIso | src/Converters/iso_converter/iso_converter.cpp:47-50 | the constructor's loop builds the exact inverse of `iso_to_value` |
| IsoConverter.IsoStringToValue | src/Converters/iso_converter/iso_converter.cpp:54-62 | the result is -1 exactly for a string that is not in the table, and otherwise that string's index |
| IsoConverter.IsoValueToString | src/Converters/iso_converter/iso_converter.cpp:65-73 | the table string for 0..38 and "" for any other value |
| IsoConverter.ValueRoundTrip | src/Converters/iso_converter/iso_converter.cpp:5-73 | for every v in 0..38, converting v to its string and back gives v |
| IsoConverter.StringRoundTrip | src/Converters/iso_converter/iso_converter.cpp:5-73 | every table string converts to its index and back to itself |
| IsoConverter.TableEnds | src/Converters/iso_converter/iso_converter.cpp:6-44 | "ISO AUTO" is 0 and "ISO 409,600" is 38 |
| IsoConverter.NoCommaMisses | src/Converters/iso_converter/iso_converter.cpp:54-62 | the lookup is exact: "ISO 1000" without its comma gives -1 |
| ConfigReader.FirstEquals | src/ConfigReader/ConfigReader.cpp:12 | the position found holds '=' with no '=' before it; a line is reported to have none only when it contains none |
| ConfigReader.SplitLine | src/ConfigReader/ConfigReader.cpp:10-13 | an entry is the line cut at its first '=' into a key without '=' and a non-empty value; no entry exactly when the line has no '=' or its only '=' is its last character |
| ConfigReader.ReadConfigLines | src/ConfigReader/ConfigReader.cpp:8-16 | the line loop yields the map `ConfigOf(lines)` |
| ConfigReader.ReadConfigFile | src/ConfigReader/ConfigReader.cpp:3-22 | a file that cannot be opened gives the error "Could not open config file: " + filename; otherwise the result is the map of its lines |
| ConfigReader.KeyFromSomeLine | src/ConfigReader/ConfigReader.cpp:9-14 | a key is in the result exactly when some line splits into that key and a value |
| ConfigReader.LastLineWins | src/ConfigReader/ConfigReader.cpp:9-14 | the value of each key comes from the last line that sets it, and that line is exactly key + "=" + value |
| ConfigReader.LaterLineOverrides | src/ConfigReader/ConfigReader.cpp:13 | of two lines setting the same key, the later one's value is kept |
| ConfigReader.FirstEqualsAfterKey | src/ConfigReader/ConfigReader.cpp:12 | in key + "=" + rest with no '=' in the key, the first '=' is right after the key |
| ConfigReader.SplitsAtFirstEquals | src/ConfigReader/ConfigReader.cpp:10-13 | key + "=" + value splits back into that key and value, further '=' staying in the value |
| ConfigReader.SplitExamples | src/ConfigReader/ConfigReader.cpp:10-13 | spaces around the key and the value are kept (" a = b " gives " a " and " b "), and "url=a=b" gives key "url" and value "a=b" |
| CameraSerialNumbers.FirstQualifying | src/CameraSerialNumberManager/CameraSerialNumberManager.cpp:59-87 | the first device in list order that matches bus, address and Sony vendor, opens and yields a non-empty serial; none exactly when no device does |
| CameraSerialNumbers.GetCameraSerialNumber | src/CameraSerialNumberManager/CameraSerialNumberManager.cpp:46-91 | the loop with its early return gives the serial of the first qualifying device, or "Serial number not found" when listing fails or none qualifies |
| CameraSerialNumbers.FirstIsUnique | src/CameraSerialNumberManager/CameraSerialNumberManager.cpp:59-81 | a qualifying device with no qualifying device before it is the one selected |
| CameraSerialNumbers.FirstMatchSelected | src/CameraSerialNumberManager/CameraSerialNumberManager.cpp:59-81 | such a device's serial descriptor is the result |
| CameraSerialNumbers.NonQualifyingSkipped | src/CameraSerialNumberManager/CameraSerialNumberManager.cpp:68-85 | a device at the wrong bus or address, with a foreign vendor, that fails to open, or that yields no bytes does not change the result |
| CameraSerialNumbers.WrongVendorNeverSelected | src/CameraSerialNumberManager/CameraSerialNumberManager.cpp:70 | a device whose vendor is not 0x054c is never selected |
| CameraSerialNumbers.NotFoundWhenNothingQualifies | src/CameraSerialNumberManager/CameraSerialNumberManager.cpp:52-57 | a failed listing, or a list with nothing qualifying, gives "Serial number not found" |
| CameraSerialNumbers.CameraSerialNumberManager.constructor | src/CameraSerialNumberManager/CameraSerialNumberManager.cpp:3-7 | construction fills both serial numbers from their scans |
| CameraSerialNumbers.CameraSerialNumberManager.GetLeftCameraSerialNumber | src/CameraSerialNumberManager/CameraSerialNumberManager.cpp:16-19 | returns the serial number held for the left camera |
| CameraSerialNumbers.CameraSerialNumberManager.GetRightCameraSerialNumber | src/CameraSerialNumberManager/CameraSerialNumberManager.cpp:26-29 | returns the serial number held for the right camera |
| CameraSerialNumbers.CameraSerialNumberManager.SetLeftCameraSerialNumber | src/CameraSerialNumberManager/CameraSerialNumberManager.cpp:16-24 | the left getter returns the value set; the right side is unchanged |
| CameraSerialNumbers.CameraSerialNumberManager.SetRightCameraSerialNumber | src/CameraSerialNumberManager/CameraSerialNumberManager.cpp:26-34 | the right getter returns the value set; the left side is unchanged |
| CameraSerialNumbers.CameraSerialNumberManager.PopulateCameraSerialNumbers | src/CameraSerialNumberManager/CameraSerialNumberManager.cpp:36-44 | left is looked up at bus 2, device 3 and right at bus 2, device 2 |
| GpioPins.GetModeString | src/gpioPin/gpioPin.cpp:3-17 | "Unknown" exactly for a value that is none of the four modes |
| GpioPins.ModeNamed | src/gpioPin/gpioPin.cpp:88-107 | an accepted name selects one of the four modes; the name is that mode's name, its lower case, or, for TEGRA_SOC, "tegra_sod" |
| GpioPins.DirectionNamed | src/gpioPin/gpioPin.cpp:124-137 | exactly "OUT", "out", "IN" and "in" are accepted; the first two select output |
| GpioPins.ModeNameRoundTrip | src/gpioPin/gpioPin.cpp:3-17 | each mode's own name selects that mode; "Unknown" is refused |
| GpioPins.AcceptedNameIsCanonical | src/gpioPin/gpioPin.cpp:88-103 | every accepted spelling selects a mode whose canonical name selects it too |
| GpioPins.LowerCaseNames | src/gpioPin/gpioPin.cpp:88-99 | "board", "bcm" and "cvm" select BOARD, BCM and CVM |
| GpioPins.TegraSocLowerCaseRefused | src/gpioPin/gpioPin.cpp:100-107 | "tegra_soc" is refused and "tegra_sod" selects TEGRA_SOC |
| GpioPins.GpioPin.constructor | src/gpioPin/gpioPin.cpp:19-39 | warnings are turned off, the mode is read, BOARD is set, and the pin is set up as input and read |
| GpioPins.GpioPin.Setmode | src/gpioPin/gpioPin.cpp:84-118 | true exactly for an accepted name, and then that one mode is set; otherwise no call is made |
| GpioPins.GpioPin.Setup | src/gpioPin/gpioPin.cpp:120-148 | true exactly for OUT/out/IN/in, and then the pin is set up in that direction; otherwise no call is made |
| GpioPins.GpioPin.PinOn | src/gpioPin/gpioPin.cpp:150-166 | the pin is set up as output, then written HIGH |
| GpioPins.GpioPin.PinOff | src/gpioPin/gpioPin.cpp:168-185 | the pin is set up as output, then written LOW |
| GpioPins.GpioPin.Restat | src/gpioPin/gpioPin.cpp:187-207 | the pin is set up as output, written LOW, then written HIGH |
| CrSDKInterface.BrightnessSettings | src/CrSDK_interface/CrSDK_interface.cpp:336-347 | the shutter index is within 0..33; the ISO code is the auto code 10 or lies in 34..48 |
| CrSDKInterface.BrightnessRoundTrip | src/CrSDK_interface/CrSDK_interface.cpp:336-347 | the brightness can be recovered from the (shutter, ISO) pair it is split into |
| CrSDKInterface.BrightnessMonotone | src/CrSDK_interface/CrSDK_interface.cpp:336-347 | a brighter value never gives a lower shutter index, nor a lower ISO code above 33 |
| CrSDKInterface.ShutterIndexInTable | src/CrSDK_interface/CrSDK_interface.cpp:336-347 | every shutter index sent is in the shutter table |
| CrSDKInterface.IsoCodesBeyondIsoTable | src/CrSDK_interface/CrSDK_interface.cpp:336-347 | the "auto" code 10 is "ISO 640" in the ISO table, and brightness 39..48 sends codes beyond that table |
| CrSDKInterface.PackAfAreaPosition | src/CrSDK_interface/CrSDK_interface.cpp:397 | for x in 0..639 and y in 0..479 the packed value is non-negative in 32 bits, its high half is x and its low half y |
| CrSDKInterface.ShiftOrIsSum | src/CrSDK_interface/CrSDK_interface.cpp:397 | in 32 bits, `(x << 16) \| y` is x * 65536 + y, and shifting and masking recover x and y |
| CrSDKInterface.Reversed | src/CrSDK_interface/CrSDK_interface.cpp:192 | reversal keeps the length |
| CrSDKInterface.ReversedAt | src/CrSDK_interface/CrSDK_interface.cpp:192 | element i of the reversal is element n-1-i of the original |
| CrSDKInterface.ReversedTwice | src/CrSDK_interface/CrSDK_interface.cpp:192 | reversing twice gives the original list |
| CrSDKInterface.ReversedSameElements | src/CrSDK_interface/CrSDK_interface.cpp:192 | reversal is a permutation |
| CrSDKInterface.ReorderedSameCameras | src/CrSDK_interface/CrSDK_interface.cpp:184-195 | reordering keeps the same cameras; with two cameras, the wrong one first means they are swapped |
| CrSDKInterface.LeftCameraFirst | src/CrSDK_interface/CrSDK_interface.cpp:184-195 | if the expected left camera is first or last, it is first after reordering |
| CrSDKInterface.FirstFalse | src/CrSDK_interface/CrSDK_interface.cpp:528-555 | the index where an early-returning loop stops: the first false flag, or none exactly when all are true |
| CrSDKInterface.DisconnectOutcomes | src/CrSDK_interface/CrSDK_interface.cpp:528-539 | a camera's disconnect step succeeds when it is not connected or its disconnect is accepted |
| CrSDKInterface.ReleaseCalls | src/CrSDK_interface/CrSDK_interface.cpp:541-555 | cameras 0..k-1 are released in order |
| CrSDKInterface.DisconnectCount | src/CrSDK_interface/CrSDK_interface.cpp:528-539 | the disconnect loop visits at most every camera |
| CrSDKInterface.ReleaseCount | src/CrSDK_interface/CrSDK_interface.cpp:541-555 | the release loop visits at most every camera |
| CrSDKInterface.FirstFalseAt | src/CrSDK_interface/CrSDK_interface.cpp:528-555 | a false flag with only true flags before it is where the loop stops |
| CrSDKInterface.DisconnectCallsConnected | src/CrSDK_interface/CrSDK_interface.cpp:528-539 | only connected cameras are sent a disconnect |
| CrSDKInterface.DisconnectCallsCover | src/CrSDK_interface/CrSDK_interface.cpp:528-539 | every connected camera the loop reaches is sent a disconnect |
| CrSDKInterface.TeardownOrder | src/CrSDK_interface/CrSDK_interface.cpp:518-565 | disconnects go only to connected cameras; any release means every connected camera accepted its disconnect first; success means every camera was released |
| CrSDKInterface.DisconnectConnected | src/CrSDK_interface/CrSDK_interface.cpp:528-539 | the disconnect loop's calls and verdict, up to the first refused disconnect |
| CrSDKInterface.ReleaseCameras | src/CrSDK_interface/CrSDK_interface.cpp:541-555 | the release loop's calls and verdict, up to the first release that times out |
| CrSDKInterface.CrSDKInterface.constructor | src/CrSDK_interface/CrSDK_interface.cpp:3-8 | no cameras yet, and a mode slot "" for each of the `maxCameras` cameras |
| CrSDKInterface.CrSDKInterface.ConnectToCameras | src/CrSDK_interface/CrSDK_interface.cpp:110-213 | the enumerated cameras are appended; true exactly when all are connected, and then the list is reordered; modes and device calls are untouched |
| CrSDKInterface.CrSDKInterface.ReorderCameras | src/CrSDK_interface/CrSDK_interface.cpp:184-195 | the camera list is reversed when its first camera is not the left one; the mode cache is not reversed |
| CrSDKInterface.CrSDKInterface.QueryMode | src/CrSDK_interface/CrSDK_interface.cpp:453-468 | the mode query overwrites camera n's slot with the reported mode |
| CrSDKInterface.CrSDKInterface.SwitchToMMode | src/CrSDK_interface/CrSDK_interface.cpp:215-263 | program M and ISO code 10 are set; if the ISO is refused, false with no query; otherwise the slot takes the reported mode and the result is whether it is "m" |
| CrSDKInterface.CrSDKInterface.SwitchToPMode | src/CrSDK_interface/CrSDK_interface.cpp:265-313 | the same for program P and "p" |
| CrSDKInterface.CrSDKInterface.ChangeBrightness | src/CrSDK_interface/CrSDK_interface.cpp:315-371 | no device call unless the camera is in "m" and 0 <= b <= 48; then both setters are called, shutter first, and the result is whether both were accepted |
| CrSDKInterface.CrSDKInterface.ChangeAFAreaPosition | src/CrSDK_interface/CrSDK_interface.cpp:373-414 | no device call unless the camera is in "p", 0 <= x <= 639 and 0 <= y <= 479; then the packed position is sent and the result is whether it was accepted |
| CrSDKInterface.CrSDKInterface.GetCamerasMode | src/CrSDK_interface/CrSDK_interface.cpp:416-451 | only camera 0 is queried, and the result is whether it reports "p" or "m" |
| CrSDKInterface.CrSDKInterface.GetCameraMode | src/CrSDK_interface/CrSDK_interface.cpp:453-475 | the slot takes the reported mode, which `getCameraModeStr` then returns; true exactly for "p" or "m" |
| CrSDKInterface.CrSDKInterface.GetCameraModeStr | src/CrSDK_interface/CrSDK_interface.cpp:477-488 | the cached mode for a listed camera, "Invalid camera number" otherwise |
| CrSDKInterface.CrSDKInterface.DownloadCameraSetting | src/CrSDK_interface/CrSDK_interface.cpp:490-502 | one download call, result true |
| CrSDKInterface.CrSDKInterface.UploadCameraSetting | src/CrSDK_interface/CrSDK_interface.cpp:504-516 | one upload call, result true |
| CrSDKInterface.CrSDKInterface.DisconnectToCameras | src/CrSDK_interface/CrSDK_interface.cpp:518-565 | the disconnect loop then the release loop; the result and the calls issued are the teardown specification's |
| CrSDKInterface.CrSDKInterface.ReleaseCameraList | src/CrSDK_interface/CrSDK_interface.cpp:567-581 | both the mode cache and the camera list are emptied |
| HttpsServer.CameraIdRejection | src/https_server/https_server.cpp:279-301 | a missing or out-of-range camera id is rejected with 400 and no interface call; a valid one is not rejected |
| HttpsServer.Outcome | src/https_server/https_server.cpp:313-323 | once the call is made, 200 exactly when it returned true and 500 exactly when it returned false |
| HttpsServer.HandleIndicator | src/https_server/https_server.cpp:247-264 | always 200, with no interface call |
| HttpsServer.HandleSwitchToPMode | src/https_server/https_server.cpp:266-333 | a bad id gives 400; otherwise `switchToPMode` is called and its result decides 200 or 500 |
| HttpsServer.HandleSwitchToMMode | src/https_server/https_server.cpp:335-402 | a bad id gives 400; otherwise `switchToMMode` is called and its result decides 200 or 500 |
| HttpsServer.BrightnessRejection | src/https_server/https_server.cpp:441-477 | no rejection exactly when the mode is "m" and a brightness in 0..48 is given; a rejection is 400 or 405 and calls nothing |
| HttpsServer.HandleChangeBrightness | src/https_server/https_server.cpp:404-503 | `changeBrightness` is called exactly when every guard passes, with that camera and value; its result decides 200 or 500; otherwise 400 or 405 |
| HttpsServer.AfAreaRejection | src/https_server/https_server.cpp:542-594 | no rejection exactly when the mode is "p", and x in 0..639 and y in 0..479 are both given; a rejection is 400 or 405 and calls nothing |
| HttpsServer.HandleChangeAFAreaPosition | src/https_server/https_server.cpp:505-621 | `changeAFAreaPosition` is called exactly when every guard passes, with that camera, x and y; its result decides 200 or 500 |
| HttpsServer.HandleGetCameraMode | src/https_server/https_server.cpp:623-682 | a bad id gives 400; a 200 response carries the mode string `getCameraModeStr` returns |
| HttpsServer.HandleDownloadCameraSetting | src/https_server/https_server.cpp:684-742 | a bad id gives 400; otherwise the call made is `getCameraMode` |
| HttpsServer.HandleUploadCameraSetting | src/https_server/https_server.cpp:744-802 | a bad id gives 400; otherwise `uploadCameraSetting` is called and its result decides 200 or 500 |
| HttpsServer.Serve | src/https_server/https_server.cpp:84-113 | only "/" and the seven camera routes are answered |
| HttpsServer.BadCameraIdRejected | src/https_server/https_server.cpp:279-301 | on every camera route, a missing id gets 400 "missing" and an out-of-range id gets 400 "out of range", with no interface call |
| HttpsServer.StatusFollowsWrapper | src/https_server/https_server.cpp:313-323 | on every route, a request that reaches the interface gets 200 or 500 according to the call's result |
| HttpsServer.KnownStatuses | src/https_server/https_server.cpp:247-802 | every status is 200, 400, 405 or 500 |
| HttpsServer.BrightnessModeCheckedFirst | src/https_server/https_server.cpp:441-465 | a camera not in "m" gets 405 whether or not a brightness is given |
| HttpsServer.BrightnessValueChecks | src/https_server/https_server.cpp:456-477 | a missing brightness gets 400; one outside 0..48 gets 405 and no call |
| HttpsServer.AfAreaCheckOrder | src/https_server/https_server.cpp:542-594 | the order is: mode ("p", else 405), then presence of x and y (else 400), then x (else 405), then y (else 405) |
| HttpsServer.DownloadQueriesMode | src/https_server/https_server.cpp:684-742 | `/download_camera_setting` behaves like `/get_camera_mode` in the call made and the status |

## What the program does not do

- It has no request rate limiter, no retry policy and no 429 status.
- It has no aperture route and no route that reads the brightness back.
- Left/right ordering only reverses the camera list in place. The mode cache is not reversed with it.
- A mode switch sets the exposure program and ISO code 10, then stores whatever mode the camera reports, even one other than "m"/"p". It sets no default brightness.
- An out-of-range brightness is answered with 405, not 400.

## Left out

- Threads, futures and sleeps are not modelled.
  - This covers the connection futures, the sleeps after mode switches, the release timeout, `releaseCameraRemoteSDK`'s waiting, and the pin's delayed switch-on thread, including the GPIO `delayedAction` and the pause inside `restat`.
  - A release that times out is an input flag, `releasedInTime`.
- Exceptions and `catch` branches are not modelled: every operation is assumed not to throw. That includes `std::stoi` on a non-numeric query parameter.
- SDK start-up and shut-down are outside the model: `initializeSDK`, `enumerateCameraDevices`, `releaseCameraRemoteSDK`, `loadZoomAndFocusPosition`, the SDK version fields, and the SDK `connect` calls inside `connectToCameras`. The enumerated cameras, with their connected flags, are an input.
- `loadSerialNumbersFromConfig` reads a file. The expected left serial number and the camera maximum are parameters instead.
- `CameraDevice.h` is not part of this model. The mode setters are taken not to write the cached mode slot, and the mode query reports its mode through a parameter.
- The server plumbing is not modelled: process lookup and killing, port probing, the listen loop, the monitoring thread, restart, SSL. JSON encoding, headers and CORS are not modelled either; a response is its status, a body tag and message, and the call made.
- `src/main.cpp` and `src/UsbController/usbController.cpp` are not modelled; both are process bootstrap and shell I/O.
- libusb is reduced to a device list.
  - Each device has its bus, address, vendor, whether it opens, and the serial descriptor it returns; a failed listing is `None`.
  - libusb context set-up, `libusb_close`, the freeing of the device list, the 256-byte buffer and logging are left out.
- The GPIO library is reduced to the list of calls issued. The destructor's `cleanup` is left out.
- Only ASCII characters are taken as digits when the shutter string is cleaned.
- In `ConfigReader`, a line ending in "\r" keeps the "\r" in its value, as `std::getline` does; that is not singled out.
- `DisconnectToCameras` does not update a camera's connected flag; the SDK keeps that state and it is not modelled.
- Undefined behaviour in the C++ code is excluded by preconditions:
  - `getCamerasMode` on an empty camera list;
  - `shutterStringToValue` on a string with no digit and no '.';
  - vector indexing outside `cameraList` or `cameraModes`.
- CrSDKInterface.CrSDKInterface.ConnectToCameras: the `connect` calls and their futures, the pauses, and the per-camera `loadZoomAndFocusPosition` are left out. Each enumerated camera's `connected` flag is its state after the connect attempt. The contract covers the appending, the all-connected check and the reordering.
- CrSDKInterface.PackAfAreaPosition: stated in integer arithmetic. Its equality with the 32-bit `(x << 16) | y` is the separate lemma `ShiftOrIsSum`.
- HttpsServer.HandleChangeBrightness: assumes the cached mode table covers the requested camera (`ModesCover`). The C++ code indexes `cameraModes` with an id it has checked only against the camera list's size.
- HttpsServer.HandleChangeAFAreaPosition: makes the same assumption as `HandleChangeBrightness`.
- HttpsServer.Serve: requires `ModesCover` only on the two routes that read the cached mode (`ReadsMode`), for the same reason. So do `BadCameraIdRejected`, `StatusFollowsWrapper` and `KnownStatuses`.
