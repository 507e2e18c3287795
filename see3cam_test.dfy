/** The display-mode switch of the See3CAM test program
    (see3cam_test/see3cam_test.cc): the raw and unwrapped images are
    single-channel exactly while the greyscale mode is selected. */
module See3CamTest {
  import opened IntTypes
  import opened Wrappers

  /** `Mode`: how the test program converts captured frames. */
  datatype Mode = Clamp | Shift | WhiteBalanceU30 | WhiteBalanceCoolWhite | Greyscale

  /** The channel count of the images a mode displays: `CV_8UC1` for
      greyscale, `CV_8UC3` otherwise. */
  function ChannelsFor(mode: Mode): (channels: nat)
    ensures channels == 1 <==> mode == Greyscale
    ensures channels == 1 || channels == 3
  {
    if mode == Greyscale then 1 else 3
  }

  /** `cv::Mat` of 8-bit samples: its shape and its pixel buffer. */
  class Mat {
    var rows: nat
    var cols: nat
    var channels: nat
    var data: array<u8>

    constructor (rows: nat, cols: nat, channels: nat)
      ensures this.rows == rows && this.cols == cols && this.channels == channels
      ensures data.Length == rows * cols * channels
    {
      this.rows := rows;
      this.cols := cols;
      this.channels := channels;
      data := new u8[rows * cols * channels];
    }

    /** `cv::Mat::create`: a new buffer only when the shape changes. */
    method Create(newRows: nat, newCols: nat, newChannels: nat)
      modifies this
      ensures rows == newRows && cols == newCols && channels == newChannels
      ensures (old(rows), old(cols), old(channels)) == (newRows, newCols, newChannels) ==> data == old(data)
      ensures (old(rows), old(cols), old(channels)) != (newRows, newCols, newChannels) ==>
                fresh(data) && data.Length == newRows * newCols * newChannels
    {
      if (rows, cols, channels) != (newRows, newCols, newChannels) {
        rows, cols, channels := newRows, newCols, newChannels;
        data := new u8[newRows * newCols * newChannels];
      }
    }
  }

  /** The channel count `setMode` recreates both images with, if any:
      switching into greyscale makes them single-channel, switching out of
      it makes them three-channel, any other switch leaves them alone. */
  function Recreate(newMode: Mode, mode: Mode): Option<nat>
  {
    if newMode == Greyscale && mode != Greyscale then Some(1)
    else if newMode != Greyscale && mode == Greyscale then Some(3)
    else None
  }

  /** The test program's invariant on the two images. */
  predicate ChannelsMatch(mode: Mode, outputChannels: nat, unwrappedChannels: nat)
  {
    outputChannels == ChannelsFor(mode) && unwrappedChannels == ChannelsFor(mode)
  }

  /** The channel count after `setMode`, given the one before. */
  function ChannelsAfter(newMode: Mode, mode: Mode, channels: nat): nat
  {
    match Recreate(newMode, mode)
    case Some(c) => c
    case None => channels
  }

  /** `main` starts in `Clamp` with two three-channel images. */
  lemma InitialChannelsMatch()
    ensures ChannelsMatch(Clamp, 3, 3)
  {
  }

  /** `setMode` preserves the invariant, from every mode to every mode. */
  lemma SetModePreservesChannelsMatch(newMode: Mode, mode: Mode, outputChannels: nat, unwrappedChannels: nat)
    requires ChannelsMatch(mode, outputChannels, unwrappedChannels)
    ensures ChannelsMatch(newMode, ChannelsAfter(newMode, mode, outputChannels),
                          ChannelsAfter(newMode, mode, unwrappedChannels))
  {
  }

  /** Under the invariant an image is recreated exactly when its channel
      count has to change. */
  lemma RecreateOnlyWhenNeeded(newMode: Mode, mode: Mode, channels: nat)
    requires channels == ChannelsFor(mode)
    ensures Recreate(newMode, mode).Some? <==> ChannelsFor(newMode) != channels
  {
  }

  /** `setMode`: recreate both images with the channel count of the new
      mode when the switch crosses greyscale, keeping their sizes, then
      select the new mode. */
  method SetMode(newMode: Mode, mode: Mode, output: Mat, unwrapped: Mat) returns (mode': Mode)
    modifies output, unwrapped
    ensures mode' == newMode
    ensures output.rows == old(output.rows) && output.cols == old(output.cols)
    ensures unwrapped.rows == old(unwrapped.rows) && unwrapped.cols == old(unwrapped.cols)
    ensures output.channels == ChannelsAfter(newMode, mode, old(output.channels))
    ensures unwrapped.channels == ChannelsAfter(newMode, mode, old(unwrapped.channels))
    ensures Recreate(newMode, mode).None? ==> output.data == old(output.data) && unwrapped.data == old(unwrapped.data)
    ensures Recreate(newMode, mode).Some? && old(output.channels) != Recreate(newMode, mode).value ==>
              fresh(output.data)
    ensures Recreate(newMode, mode).Some? && old(unwrapped.channels) != Recreate(newMode, mode).value ==>
              fresh(unwrapped.data)
    ensures old(ChannelsMatch(mode, output.channels, unwrapped.channels)) ==>
              ChannelsMatch(mode', output.channels, unwrapped.channels)
  {
    if newMode == Greyscale && mode != Greyscale {
      output.Create(output.rows, output.cols, 1);
      unwrapped.Create(unwrapped.rows, unwrapped.cols, 1);
    } else if newMode != Greyscale && mode == Greyscale {
      output.Create(output.rows, output.cols, 3);
      unwrapped.Create(unwrapped.rows, unwrapped.cols, 3);
    }
    mode' := newMode;
  }
}
