/** The part of SIrrlichtCreationParameters that createDevice, the SDL2
    device's constructor and createWindow read. */
module CreationParams {
  import opened IrrTypes

  /** core::dimension2d<u32>. */
  datatype Dimension = Dimension(width: u32, height: u32)

  /** An IEventReceiver pointer, compared by identity; None is null. */
  type ReceiverRef = int

  datatype CreationParameters = CreationParameters(
    driverType: int,
    windowSize: Dimension,
    bits: u8,
    zBufferBits: u8,
    fullscreen: bool,
    withAlphaChannel: bool,
    doublebuffer: bool,
    stencilbuffer: bool,
    stereobuffer: bool,
    vsync: bool,
    antiAlias: u8,
    eventReceiver: Option<ReceiverRef>)
}
