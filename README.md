# BoB robotics core, modelled in Dafny

This project models the small sequential cores of the BoB robotics
library (a C++ toolkit for bio-inspired robots) and proves properties
about them. Each core becomes one Dafny module:

- `ViconUdp` (`vicon_udp.dfy`): the per-object record the Vicon
  motion-capture client keeps. It holds a 24-byte name, a 32-bit frame
  number, a pose and a receipt time. The velocity variant computes the
  frame delta with 32-bit wrap-around and reads the old pose before the
  base update overwrites it. The clock is a `now` parameter. The
  velocity smoothing is a function-valued parameter.
- `See3CamCu40` (`see3cam_cu40.dfy`): the See3CAM_CU40 camera. This
  covers the resolution enum that packs width and height into 64 bits,
  the four 10-bit to 8-bit channel converters, the Bayer super-pixel
  demosaic loops over a given frame buffer, and the clamped brightness
  and exposure setters.
- `See3CamTest` (`see3cam_test.dfy`): the test program's `setMode`, which
  recreates the two images when switching into or out of greyscale.
- `StoneCx` (`simulator_common.dfy`): the compressed-sparse-row
  connectivity builders of the central-complex model. `indInG` holds row
  offsets and `ind` holds targets.
- `ImageDatabase` (`image_database.dfy`): the `printf`-style route and
  grid image file names.
- `JoystickWindows` (`joystick_windows.dfy`): one event step of the
  XInput joystick reader. It is a button-mask edge detector followed by
  an axis-change emitter, in priority order, over cached stick values.
- `Bebop` (`bebop.dfy`): the Parrot Bebop glue. This covers joystick
  dispatch, take-off and landing with the flight-event handler, the
  connect and disconnect waits over a stream of device states, and the
  destructor's order of calls. Calls into the drone SDK are recorded in
  a `calls` log.
- `Pose` (`pose.dfy`): the 2D and 3D position and pose value types and
  their conversions.
- `IntTypes`, `Wrappers`, `NatArith` (`int_types.dfy`): fixed-width
  integer ranges, `Option`/`Result`, and small arithmetic lemmas.

## Model

| member | source | states |
|---|---|---|
| ViconUdp.DeltaFrames | src/vicon/udp.cc:56 | the unsigned 32-bit difference: adding it to the previous frame number modulo 2^32 gives the new one |
| ViconUdp.DeltaFramesOfLater | src/vicon/udp.cc:56 | a frame number k frames later, even across the 2^32 wrap, gives the delta k |
| ViconUdp.DeltaFramesUnique | src/vicon/udp.cc:56 | the delta is the only u32 that bridges the two frame numbers |
| ViconUdp.ElapsedMs | src/vicon/udp.cc:52-57 | the elapsed time is 10 ms per frame of delta, a frame count and not a clock reading |
| ViconUdp.ObjectData.constructor | src/vicon/udp.cc:11-28 | a record starts with a zero name, frame 0, the zero pose and its timer started now |
| ViconUdp.ObjectData.Update | src/vicon/udp.cc:11-40 | name, frame number and pose become the new packet's; `GetName`/`GetFrameNumber` return them; the receipt timer restarts, so the time since receipt is 0 |
| ViconUdp.ObjectData.TimeSinceReceived | src/vicon/udp.cc:42-46 | the time since the latest update: receipt time plus elapsed equals now, non-negative when time has not gone backwards |
| ViconUdp.ObjectData.GetFrameNumber | src/vicon/udp.cc:30-34 | `getFrameNumber` returns the stored frame number |
| ViconUdp.ObjectData.GetName | src/vicon/udp.cc:36-40 | `getName` returns the stored name |
| ViconUdp.ObjectData.GetPosition | src/vicon/udp.cc:63 | the position read before an update is the stored pose's x, y and z |
| ViconUdp.ObjectData.GetAttitude | src/vicon/udp.cc:67 | the attitude read before an update is the stored pose's yaw, pitch and roll |
| ViconUdp.ObjectDataVelocity.constructor | src/vicon/udp.cc:48-76 | a fresh base record with a zero name, frame 0, the zero pose and its timer started now, and zero linear and angular velocities |
| ViconUdp.ObjectDataVelocity.GetVelocity | src/vicon/udp.cc:64 | the linear velocity last written by the filter |
| ViconUdp.ObjectDataVelocity.GetAngularVelocity | src/vicon/udp.cc:71 | the angular velocity last written by the filter |
| ViconUdp.ObjectDataVelocity.Update | src/vicon/udp.cc:48-76 | the base fields become the new packet's; the velocities are the filter applied to the new pose, the pose from before the update, the old velocity, 10 ms times the wrapped delta, and the 30 ms smoothing constant |
| See3CamCu40.UnpackPack | common/see3cam_cu40.h:60-66 | unpacking `w \| (h << 32)` gives back w in the low and h in the high 32 bits, for w, h < 2^32 |
| See3CamCu40.Width | common/see3cam_cu40.h:193-196 | the low 32 bits of each resolution are the width in its name (1280 for `_1280x720`), an even positive number |
| See3CamCu40.Height | common/see3cam_cu40.h:198-201 | the high 32 bits of each resolution are the height in its name (720 for `_1280x720`), an even positive number |
| See3CamCu40.See3CamCu40.constructor | common/see3cam_cu40.h:72-96 | the camera after a successful open caches the resolution and both queried control ranges |
| See3CamCu40.See3CamCu40.GetWidth | common/see3cam_cu40.h:193-196 | the camera's width is the one its resolution names |
| See3CamCu40.See3CamCu40.GetHeight | common/see3cam_cu40.h:198-201 | the camera's height is the one its resolution names |
| See3CamCu40.See3CamCu40.GetSuperPixelWidth | common/see3cam_cu40.h:205 | twice the super-pixel width is the width |
| See3CamCu40.See3CamCu40.GetSuperPixelHeight | common/see3cam_cu40.h:206 | twice the super-pixel height is the height |
| See3CamCu40.Scaled | common/see3cam_cu40.h:223-234 | `PixelScale` and the G channel of the white balances: for a 10-bit value v the byte r satisfies 4r <= v < 4r + 4, so r = v >> 2 |
| See3CamCu40.ScaledTruncates | common/see3cam_cu40.h:231-234 | for any sample the byte is (v >> 2) truncated to 8 bits, the `uint8_t` cast |
| See3CamCu40.Clamped | common/see3cam_cu40.h:242-253 | `PixelClamp`: the byte is v up to 255 and 255 above |
| See3CamCu40.FixedPointScaled | common/see3cam_cu40.h:262-266 | the R channel of the white balances: the product of value and gain fits in 32 bits, and the byte is exactly (v*k) >> 16 whenever that fits in a byte |
| See3CamCu40.FixedPointScaledTruncates | common/see3cam_cu40.h:265 | for every sample the byte is (v*k) >> 16 truncated to 8 bits, the `uint8_t` cast |
| See3CamCu40.FixedPointClamped | common/see3cam_cu40.h:273-277 | the B channel of the white balances: the byte equals (v*k) >> 16 when that is below 255, and is 255 otherwise |
| See3CamCu40.ProductFits | common/see3cam_cu40.h:262-300 | a 16-bit sample times a 16-bit gain fits the 32-bit product the converters compute |
| See3CamCu40.PixelConverter.GetR | common/see3cam_cu40.h:223-290 | the red byte of each converter: scaled, clamped, or the 0.96 / 0.92 fixed-point gain |
| See3CamCu40.PixelConverter.GetG | common/see3cam_cu40.h:223-295 | the green byte: clamped for `PixelClamp`, scaled by 1/4 for the other three |
| See3CamCu40.PixelConverter.GetB | common/see3cam_cu40.h:223-300 | the blue byte: scaled, clamped, or the 1.74 / 1.53 fixed-point gain clamped at 255 |
| See3CamCu40.PixelConverter.Channel | common/see3cam_cu40.h:340-342 | output byte 0 of a super-pixel is blue, 1 green, 2 red |
| See3CamCu40.ConverterChannelsIndependent | common/see3cam_cu40.h:223-300 | each converter's R, G and B output depends on that one input channel only |
| See3CamCu40.WhiteBalanceAgainstScale | common/see3cam_cu40.h:262-300 | for 10-bit inputs, both white balances (CoolWhite gains 15729/28508, U30 gains 15073/25068) darken R, keep G as `PixelScale` does, and brighten B |
| See3CamCu40.Grey | common/see3cam_cu40.h:168-171 | for 10-bit samples the grey byte is (b + g + r) / 12, so it is at most 255 |
| See3CamCu40.GreyTruncates | common/see3cam_cu40.h:169-172 | for any samples the grey byte is (b + g + r) / 12 truncated to 8 bits, the `uint8_t` cast |
| See3CamCu40.SuperPixelImage | common/see3cam_cu40.h:307-350 | the BGR image has w/2 × h/2 pixels of 3 bytes |
| See3CamCu40.GreyImage | common/see3cam_cu40.h:136-180 | the grey image has w/2 × h/2 bytes |
| See3CamCu40.SuperPixelByteAt | common/see3cam_cu40.h:327-343 | output byte c of super-pixel (sy, sx) is channel c of the samples at (2sy, 2sx), (2sy, 2sx+1) and (2sy+1, 2sx+1) |
| See3CamCu40.GreyPixelAt | common/see3cam_cu40.h:155-173 | output byte (sy, sx) of the grey image is the grey value of the same three samples |
| See3CamCu40.SuperPixelInside | common/see3cam_cu40.h:139-151 | for even w and h, every sample read lies inside the w×h frame and every byte written inside the output |
| See3CamCu40.SuperPixelImageAt | common/see3cam_cu40.h:327-343 | super-pixel (y/2, x/2) holds `T::getB`, `T::getG`, `T::getR` of b = bayer[y·w+x], g = bayer[y·w+x+1], r = bayer[(y+1)·w+x+1], in that order |
| See3CamCu40.GreyImageAt | common/see3cam_cu40.h:155-173 | grey pixel (y/2, x/2) is (b + g + r) / 12 of the same three samples when they are 10-bit |
| See3CamCu40.DecodeBgrOffset | common/see3cam_cu40.h:327-343 | a BGR byte offset determines its super-pixel and its channel, so no two writes share a byte |
| See3CamCu40.ClampToControl | common/see3cam_cu40.h:183-191 | the value sent is clamped into [minimum, maximum] of the queried control: unchanged inside, the nearer bound outside |
| See3CamCu40.See3CamCu40.SetBrightness | common/see3cam_cu40.h:183-186 | requests the brightness control with the clamped value |
| See3CamCu40.See3CamCu40.SetExposure | common/see3cam_cu40.h:188-191 | requests the absolute-exposure control with the clamped value |
| See3CamCu40.See3CamCu40.CaptureSuperPixel | common/see3cam_cu40.h:307-350 | on a captured w×h frame, fills the w/2 × h/2 × 3 output with exactly `SuperPixelImage`; on a failed capture returns false and leaves the output alone |
| See3CamCu40.See3CamCu40.CaptureSuperPixelGreyscale | common/see3cam_cu40.h:136-180 | on a captured frame, fills the w/2 × h/2 output with exactly `GreyImage`; on a failed capture returns false and leaves the output alone |
| See3CamTest.ChannelsFor | see3cam_test/see3cam_test.cc:18-28 | greyscale images have 1 channel, every other mode 3 |
| See3CamTest.Mat.constructor | see3cam_test/see3cam_test.cc:79-80 | an image of the given rows, cols and channels |
| See3CamTest.Mat.Create | see3cam_test/see3cam_test.cc:21-27 | `cv::Mat::create` keeps the buffer when the shape is unchanged and allocates a new one otherwise |
| See3CamTest.InitialChannelsMatch | see3cam_test/see3cam_test.cc:69-80 | the program starts in Clamp mode with two 3-channel images, so the images are single-channel iff the mode is greyscale |
| See3CamTest.SetModePreservesChannelsMatch | see3cam_test/see3cam_test.cc:18-32 | `setMode` keeps "single-channel iff greyscale" |
| See3CamTest.RecreateOnlyWhenNeeded | see3cam_test/see3cam_test.cc:20-28 | under that invariant the images are recreated exactly when the channel count must change |
| See3CamTest.SetMode | see3cam_test/see3cam_test.cc:18-32 | the mode becomes the new one; rows and cols stay; switching into greyscale makes both images 1-channel and out of it 3-channel; other switches leave both buffers untouched; the invariant is preserved |
| StoneCx.SparseProjection.constructor | projects/stone_cx/simulatorCommon.cc:25-43 | a projection with no rows and no targets yet |
| StoneCx.SparseProjection.Allocate | projects/stone_cx/simulatorCommon.cc:32-34 | new, distinct row-offset and target arrays of numPre + 1 and connN entries |
| StoneCx.SparseProjection.BuildTBToCPUConnector | projects/stone_cx/simulatorCommon.cc:25-43 | succeeds iff numPost == 2·numPre and leaves the arrays alone otherwise; on success `indInG[i] = 2i` up to the sentinel 2·numPre = numPost, and row i targets i and i + 8 |
| StoneCx.SparseProjection.BuildTBToCPUConnectorCorrected | projects/stone_cx/simulatorCommon.cc:25-43 | the same, with row i targeting i and i + numPre |
| StoneCx.TBToCPURow | projects/stone_cx/simulatorCommon.cc:36-42 | row i of the TB connector is well formed and is exactly [i, i + offset] |
| StoneCx.TBToCPUCorrectedIsBijective | projects/stone_cx/simulatorCommon.cc:28-42 | with offset numPre every target lies below numPost and no two synapses share a target |
| StoneCx.TBToCPUAsWrittenOutOfRange | projects/stone_cx/simulatorCommon.cc:40 | with numPre = 4 and numPost = 8, the fixed offset 8 makes row 0 target neuron 8, which does not exist |
| StoneCx.SparseProjection.BuildCL1TB1 | projects/stone_cx/simulatorCommon.cc:55-59 | one synapse per CL1 neuron: `indInG[k] = k` for k <= numCL1 and `ind[i] = i % 8` |
| StoneCx.CL1TB1Row | projects/stone_cx/simulatorCommon.cc:55-59 | CL1 neuron i projects to TB1 neuron i % 8 only |
| StoneCx.SparseProjection.BuildCPU4CPU1 | projects/stone_cx/simulatorCommon.cc:85-92 | one synapse per row, with the first 16 targets the CPU4 to CPU1 permutation |
| StoneCx.CPU4ToCPU1IsInvolution | projects/stone_cx/simulatorCommon.cc:86-92 | the map 0↔15, 1+i↔8+i permutes 0..15 and is its own inverse |
| StoneCx.SparseProjection.BuildTN2CPU4 | projects/stone_cx/simulatorCommon.cc:95-99 | row offsets are 0, 8, numCPU4 and `ind[k] = k` |
| StoneCx.TN2CPU4Rows | projects/stone_cx/simulatorCommon.cc:95-99 | the left TN2 neuron drives CPU4 neurons 0..7 and the right one neurons 8 and up |
| StoneCx.SparseProjection.BuildPontineCPU1 | projects/stone_cx/simulatorCommon.cc:102-111 | one synapse per row, with the first 16 targets the Pontine to CPU1 permutation |
| StoneCx.PontineToCPU1IsInvolution | projects/stone_cx/simulatorCommon.cc:103-111 | the map i↔11+i (i < 5), 5+i↔8+i (i < 3) permutes 0..15 and is its own inverse |
| StoneCx.FillIota | projects/stone_cx/simulatorCommon.cc:56 | `std::iota` from 0 |
| StoneCx.Iota | projects/stone_cx/simulatorCommon.cc:56 | the sequence 0, 1, …, n-1 |
| ImageDatabase.Digits | common/image_database.h:14 | the decimal digits of n: at least one, all digits, no leading zero |
| ImageDatabase.DigitsRoundTrip | common/image_database.h:14 | reading the decimal digits of n gives back n |
| ImageDatabase.DigitsLength | common/image_database.h:13 | n below 10^k has at most k digits |
| ImageDatabase.ZeroPadValue | common/image_database.h:14 | leading zeros do not change the value read |
| ImageDatabase.PaddedDigits | common/image_database.h:14 | zero-padding to a width gives at least that many digits, still reading as n |
| ImageDatabase.Snprintf | common/image_database.h:13-14 | `snprintf` into a buffer of a given size leaves a string shorter than the buffer, unchanged when it fits |
| ImageDatabase.AsSigned32 | common/image_database.h:11-14 | an unsigned int passed to `%d` is read as the two's-complement int with the same bits |
| ImageDatabase.RouteFilenameFits | common/image_database.h:13-14 | the formatted route name never exceeds 21 characters, so the 22-byte buffer never truncates it |
| ImageDatabase.RouteFilenameShape | common/image_database.h:10-16 | below 2^31 the route name is "image_", the index zero-padded to at least 5 digits, then ".png" |
| ImageDatabase.RouteFilenameLength | common/image_database.h:14 | below 100000 the route name has 15 characters |
| ImageDatabase.RouteFilenameAsWrittenNegative | common/image_database.h:14 | from 2^31 on, the route name carries a minus sign where the unsigned format has a digit |
| ImageDatabase.RouteFilenameCorrectedShape | common/image_database.h:10-16 | with `%05u` every index gives "image_" + its zero-padded digits + ".png" |
| ImageDatabase.RouteFilenameCorrectedInjective | common/image_database.h:10-16 | with `%05u` distinct route indices give distinct names |
| ImageDatabase.Magnitude | common/image_database.h:21-24 | the absolute value of an int, without the overflow of negating `INT_MIN` |
| ImageDatabase.RouteFilename | common/image_database.h:10-16 | `getRouteDatabaseFilename` as written: `%05d` of the index read as a signed int, cut to the 22-byte buffer, so at most 21 characters |
| ImageDatabase.RouteFilenameCorrected | common/image_database.h:10-16 | the same name with `%05u`, at most 21 characters |
| ImageDatabase.ZeroPad | common/image_database.h:21-25 | the `zeroPad` lambda: `%+05d` into a 12-byte buffer, at most 11 characters |
| ImageDatabase.ImageFilename | common/image_database.h:18-27 | `getImageDatabaseFilename`: "image_", the three padded fields joined by underscores, then ".png" |
| ImageDatabase.ZeroPadShape | common/image_database.h:21-24 | the 12-byte buffer never truncates: the field is the full `%+05d` text, an explicit sign then the magnitude's digits, 5 to 11 characters |
| ImageDatabase.ZeroPadInjective | common/image_database.h:21-24 | distinct ints give distinct padded fields |
| ImageDatabase.ZeroPadHasNoSeparator | common/image_database.h:21-26 | a padded field never contains the `_` separator |
| ImageDatabase.SplitAtSeparator | common/image_database.h:26 | a separator absent from the first field splits a name at one place only |
| ImageDatabase.GridFieldsDetermined | common/image_database.h:26 | the three fields joined by underscores are determined by the joined string when the first two hold no underscore |
| ImageDatabase.ImageFilenameInjective | common/image_database.h:18-27 | distinct (x, y, z) triples give distinct grid file names |
| ImageDatabase.RouteFilenameExample | common/image_database.h:10-16 | route 42 is "image_00042.png" |
| ImageDatabase.ZeroPadOneDigit | common/image_database.h:21-24 | a one-digit value becomes its sign, three zeros and its digit |
| ImageDatabase.ImageFilenameExample | common/image_database.h:18-27 | cell (7, -5, 0) is "image_+0007_-0005_+0000.png" |
| JoystickWindows.Axis.Number | hid/joystick_windows.h:141-179 | the axis numbers the reader reports are all below 6 |
| JoystickWindows.NewBits | hid/joystick_windows.h:121-122 | `~pressed & buttState` holds only buttons not already pressed, and with the kept ones makes up the new mask |
| JoystickWindows.ClearedBits | hid/joystick_windows.h:128-129 | `pressed & ~buttState` holds only released buttons, and without them the old mask is the new one |
| JoystickWindows.PressReported | hid/joystick_windows.h:121-126 | newly set bits are reported as a press of exactly those bits, and `pressed` becomes the new mask |
| JoystickWindows.ReleaseReported | hid/joystick_windows.h:128-133 | with no new bits and some cleared, a release of exactly the cleared bits is reported, and `pressed` becomes the new mask |
| JoystickWindows.AxisPriority | hid/joystick_windows.h:135-179 | with buttons unchanged, the first axis in the order left-H, left-V, right-H, right-V, left trigger, right trigger that changed (sticks) or is held (triggers) is reported with its value and is the only cache entry updated |
| JoystickWindows.TriggerRepeats | hid/joystick_windows.h:169-179 | a held trigger is reported on every sample and changes no cached state |
| JoystickWindows.TriggerReleased | hid/joystick_windows.h:180-189 | with nothing else to report, an event last on a trigger is re-sent with value 0; otherwise nothing is reported |
| JoystickWindows.StickChangeIsCached | hid/joystick_windows.h:141-168 | after a stick is reported, the same sample does not report it again |
| JoystickWindows.Joystick.constructor | hid/joystick_windows.h:45-70 | the field initialisers: no buttons pressed and all cached sticks 0 |
| JoystickWindows.Open | hid/joystick_windows.h:62-83 | construction fails with "Could not open joystick" exactly when the controller state cannot be read, and otherwise gives a fresh reader in the zero state |
| JoystickWindows.Joystick.ReadStep | hid/joystick_windows.h:119-191 | one sample of the loop: the outcome is the reference step, and the state is its cache, or unchanged when it waits |
| JoystickWindows.Joystick.ReadAxes | hid/joystick_windows.h:135-189 | the axis part of one sample, against the reference axis step |
| JoystickWindows.Joystick.Read | hid/joystick_windows.h:116-194 | returns true; stops at the first sample that reports and reports what the reference step says; every earlier sample waits; without a report the state is unchanged |
| Bebop.Cap | libbebop/bebop.cc:201 | the value is clamped to [-1, 1] |
| Bebop.Round | libbebop/bebop.cc:202 | rounding lands within one half of its argument, and a half rounds away from zero |
| Bebop.Percent | libbebop/bebop.cc:201-234 | the percentage sent is within [-100, 100], saturating at ±100; it is the capped value times 100 rounded to the nearest integer, halves away from zero |
| Bebop.PercentIsOdd | libbebop/bebop.cc:201-234 | negating the input negates the percentage |
| Bebop.PercentIsMonotone | libbebop/bebop.cc:201-234 | a larger input never sends a smaller percentage |
| Bebop.StopMovingIsAllZero | libbebop/bebop.cc:240-247 | `stopMoving` sends pitch 0, roll 0, yaw 0 and gaz 0, with the PCMD flag after pitch and roll |
| Bebop.AxisMapping | libbebop/bebop.cc:526-553 | right-H rolls by v, right-V pitches by -v, left-V climbs by -v, the left trigger yaws by -v, the right trigger by v; left-H sends nothing |
| Bebop.TriggersYawOpposite | libbebop/bebop.cc:543-548 | the two triggers yaw in opposite directions for the same value |
| Bebop.ButtonMapping | libbebop/bebop.cc:558-578 | releases send nothing; A takes off and B lands, each followed by the handler call iff one is set; other buttons send nothing |
| Bebop.WaitPast | libbebop/bebop.cc:281-283 | consumes state updates while they equal the waited-for state; returns the first other state, or none when the stream ends |
| Bebop.FirstOther | libbebop/bebop.cc:281-283 | the position of the first update other than the waited-for state, or none |
| Bebop.FirstOtherAt | libbebop/bebop.cc:281-283 | a position whose earlier updates all wait is the first other one |
| Bebop.WaitPastFindsFirstOther | libbebop/bebop.cc:281-283 | the loop stops exactly at the first other state |
| Bebop.ConnectSucceedsIff | libbebop/bebop.cc:280-287 | `connect` succeeds iff the first state after STARTING is RUNNING; the stream running out while STARTING is its own outcome |
| Bebop.DisconnectIff | libbebop/bebop.cc:298-315 | without a device nothing happens; otherwise disconnection is clean iff the first state after STOPPING is STOPPED, and any other only warns |
| Bebop.Drone.constructor | libbebop/bebop.cc:49-72 | a drone with a device, the three user maxima stored, no flight-event handler and no calls made |
| Bebop.Drone.Connect | libbebop/bebop.cc:273-293 | sends the start command; the result is the connect outcome; the three speed limits are sent only on success |
| Bebop.Drone.Disconnect | libbebop/bebop.cc:298-315 | sends the stop command only with a device; the outcome is the disconnect outcome |
| Bebop.Drone.TakeOff | libbebop/bebop.cc:101-110 | sends take-off, then calls the handler with true iff one is set |
| Bebop.Drone.Land | libbebop/bebop.cc:115-124 | sends landing, then calls the handler with false iff one is set |
| Bebop.Drone.SetFlightEventHandler | libbebop/bebop.cc:261-265 | replaces the handler and sends nothing |
| Bebop.Drone.SetPitch | libbebop/bebop.cc:198-204 | sends the capped, rounded pitch percentage, then the PCMD flag |
| Bebop.Drone.SetRoll | libbebop/bebop.cc:209-215 | sends the capped, rounded roll percentage, then the PCMD flag |
| Bebop.Drone.SetVerticalSpeed | libbebop/bebop.cc:220-225 | sends the capped, rounded gaz percentage |
| Bebop.Drone.SetYawSpeed | libbebop/bebop.cc:230-235 | sends the capped, rounded yaw percentage |
| Bebop.Drone.StopMoving | libbebop/bebop.cc:240-247 | sends the all-zero movement commands |
| Bebop.Drone.StopStreaming | libbebop/bebop.cc:390-394 | disables video streaming |
| Bebop.Drone.OnAxisEvent | libbebop/bebop.cc:526-553 | sends the axis's commands and reports handled iff there are any |
| Bebop.Drone.OnButtonEvent | libbebop/bebop.cc:558-578 | sends the button's commands and reports handled iff A or B was pressed |
| Bebop.Drone.Destroy | libbebop/bebop.cc:77-82 | lands, then stops streaming, then disconnects, in that order |
| Pose.Position2.Size | common/pose.h:41 | `size()` is N = 2 |
| Pose.Position3.Size | common/pose.h:41 | `size()` is N = 3 |
| Pose.Position2.At | common/pose.h:39-40 | `operator[]` reads element i, for each i below `size()` |
| Pose.Position3.At | common/pose.h:39-40 | `operator[]` reads element i, for each i below `size()` |
| Pose.Position2.X | common/pose.h:69-70 | x is element 0 |
| Pose.Position2.Y | common/pose.h:71-72 | y is element 1 |
| Pose.Position2.Z | common/pose.h:73 | a planar position's z is the constant 0 |
| Pose.Position3.X | common/pose.h:91-92 | x is element 0 |
| Pose.Position3.Y | common/pose.h:93-94 | y is element 1 |
| Pose.Position3.Z | common/pose.h:95-96 | z is element 2 |
| Pose.MakePosition2 | common/pose.h:61-63 | the constructor stores x and y |
| Pose.MakePosition3 | common/pose.h:83-85 | the constructor stores x, y and z |
| Pose.MakePose2 | common/pose.h:115-117 | the constructor stores x, y and heading |
| Pose.Pose2.X | common/pose.h:133-134 | x is element 0 of the position |
| Pose.Pose2.Y | common/pose.h:135-136 | y is element 1 of the position |
| Pose.Pose2.Z | common/pose.h:137 | a planar pose's z is the constant 0 |
| Pose.Pose2.Yaw | common/pose.h:140-141 | yaw is the stored heading |
| Pose.Pose2.Pitch | common/pose.h:142 | a planar pose's pitch is the constant 0 |
| Pose.Pose2.Roll | common/pose.h:143 | a planar pose's roll is the constant 0 |
| Pose.Pose2.Attitude | common/pose.h:139 | a planar pose's attitude is (yaw, 0, 0) |
| Pose.Pose2.ToPose2 | common/pose.h:119-123 | conversion in the same units gives the pose back |
| Pose.Pose2.ToPose3 | common/pose.h:125-129 | lifting keeps x, y and yaw and sets z, pitch and roll to 0; projecting back gives the original pose |
| Pose.Pose3.X | common/pose.h:177-178 | x is element 0 of the position |
| Pose.Pose3.Y | common/pose.h:179-180 | y is element 1 of the position |
| Pose.Pose3.Z | common/pose.h:181-182 | z is element 2 of the position |
| Pose.Pose3.Yaw | common/pose.h:186-187 | yaw is element 0 of the attitude |
| Pose.Pose3.Pitch | common/pose.h:188-189 | pitch is element 1 of the attitude |
| Pose.Pose3.Roll | common/pose.h:190-191 | roll is element 2 of the attitude |
| Pose.Pose3.ToPose2 | common/pose.h:163-167 | projecting keeps x, y and yaw |
| Pose.Pose3.ToPose3 | common/pose.h:169-173 | conversion in the same units gives the pose back |
| Pose.ProjectLiftIdentity | common/pose.h:125-129 | projecting a spatial pose and lifting it back gives it again iff it is planar |
| Pose.ProjectionKernel | common/pose.h:163-167 | two spatial poses project alike iff they agree on x, y and yaw, so z, pitch and roll are dropped |
| IntTypes.ToU8 | common/see3cam_cu40.h:231-234 | the `uint8_t` cast: congruent modulo 256, and the identity on byte values |

## Left out

- The Vicon datagram decoder, the receive thread and UDP socket, and the timed `getObjectData` lookup are in `vicon/udp.h`, which is not part of this model. The same holds for the `TimedOutError` it throws (src/vicon/udp.cc:78-80).
- ViconUdp.ObjectDataVelocity.Update: the exponential smoothing, `calculateVelocities` and `circularDistance` are floating-point numerics in unseen headers. They are a function-valued parameter applied to the same inputs. As in the code, a delta of 0 frames is not guarded.
- ViconUdp.ObjectData.constructor: the initial field values come from `vicon/udp.h`, which is not part of this model. Zero values are assumed.
- ViconUdp.ObjectData.TimeSinceReceived: the steady clock is the `now` parameter, in the same unit as the receipt time.
- The TB1_TB1 connectivity (cosine weights) and the one-to-one connectors built by `buildOneToOneConnector` are left out, because that helper lives in an unseen GeNN header. The same holds for the rest of `buildConnectivity`'s GeNN plumbing.
- StoneCx.SparseProjection.BuildTBToCPUConnector: `2 * numPre` is unbounded, so the 32-bit wrap of that product is not modelled. The GeNN allocate functions are modelled only as fresh arrays of the requested sizes. The neuron counts of the unseen `parameters.h` are method parameters. The hemisphere indices `HemisphereLeft`, `HemisphereRight` and `HemisphereMax` are also defined there; the model assumes 0, 1 and 2, the order the connectors' index arithmetic relies on.
- StoneCx.SparseProjection.BuildCPU4CPU1: the source hard-codes targets up to 15. Rows 16 and up are left as allocated, and the method requires at least 16 neurons (the source writes index 15 unconditionally).
- StoneCx.SparseProjection.BuildPontineCPU1: the same as for BuildCPU4CPU1.
- The V4L2 device, the capture itself, the control queries and the commented-out NEON code are left out. A capture is a `captured` flag plus a given frame buffer. The `assert`s on the output size, and the ones on the captured frame's byte size (`sizeBytes == inputWidth * inputHeight * sizeof(uint16_t)`, a frame of width × height samples), become preconditions.
- See3CamCu40.See3CamCu40.constructor: only a successful `open` is modelled. The paths where opening the device, a control query or the reset to the default control values fails, and the constructor then throws "Cannot open See3CAM_CU40", are left out with the V4L2 device. So is the `resetToDefaults` request itself.
- ImageDatabase.Snprintf: only the length and truncation behaviour of `snprintf` is modelled. The formats are written out as functions.
- JoystickWindows.Joystick.constructor: a Dafny constructor cannot fail, so the `open()` it calls, and the exception thrown when `XInputGetState` fails, are modelled by `JoystickWindows.Open`, which returns an error instead. The controller number is always 0, as in the source.
- JoystickWindows.Joystick.Read: the busy-wait on `Change()` is a finite sequence of sampled controller states, one per iteration. An iteration reads each field once, where the source calls `Read()` several times. When the samples run out without a report, the method returns where the source would keep polling. The axis numbers 0..5 are assumed, because `joystick_base.h` is not part of this model.
- The Bebop ARSDK device creation, `checkError`, the state-change and battery callbacks, and the printing are left out. Also left out are video streaming (`startStreaming`, `getVideoStream`), `takePhoto`, `addJoystick`, and the queries of the speed limits.
- Bebop.Round: float arithmetic is modelled over reals; `round` rounds halves away from zero.
- Bebop.Drone.constructor: the print callback, the event handlers and the video stream object it sets up are not modelled; its closing `connect()` is the separate `Connect`.
- Bebop.Drone.Connect: the constructor's call to `connect` is this separate method. A stream of states that ends while still STARTING gives `StillStarting`, where the source would block.
- Bebop.Drone.Disconnect: a stream that ends while still STOPPING gives `StillStopping`, where the source would block.
- The `Pose` module models only same-unit conversions. Unit templates, the `convertUnitArray` helpers and the generic `PositionBase<N>` for other N are left out.
- The `main` loop of the camera test program is left out, apart from its initial mode and image shapes.
- `robotPositioner.h`, `infomax.h`, `differencers.h`, the display and video input classes, the example programs, `mindstorms_imu.cc` and `motor.h` are left out. They are floating-point control or image numerics, UI, hardware wrappers or interfaces only.

## Findings

| source | as written | input that shows it | evidently intended | confidence | as-written member | corrected member |
|---|---|---|---|---|---|---|
| projects/stone_cx/simulatorCommon.cc:40 | the second target of row i is `i + 8`, although the guard only demands numPost == 2·numPre | numPre = 4, numPost = 8: row 0 targets neuron 8, one past the last | `i + numPre` | medium, not executed; the program only builds it with 8 TB1 neurons, where both agree | StoneCx.SparseProjection.BuildTBToCPUConnector, StoneCx.TBToCPUAsWrittenOutOfRange | StoneCx.SparseProjection.BuildTBToCPUConnectorCorrected, StoneCx.TBToCPUCorrectedIsBijective |
| common/image_database.h:14 | an `unsigned int` route index is formatted with `%05d` | routeIndex = 2147483648 gives "image_-2147483648.png" | `%05u` | low, not executed; route indices that large are unlikely in practice | ImageDatabase.RouteFilename, ImageDatabase.RouteFilenameAsWrittenNegative | ImageDatabase.RouteFilenameCorrected, ImageDatabase.RouteFilenameCorrectedShape, ImageDatabase.RouteFilenameCorrectedInjective |
