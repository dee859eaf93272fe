/** source/Irrlicht/Irrlicht.cpp: the two entry points that make a device.
    createDeviceEx builds the SDL2 device and hands it out only when it has
    a video driver; createDevice packs its arguments into creation
    parameters and calls createDeviceEx. */
module Irrlicht {
  import opened IrrTypes
  import opened CreationParams
  import opened Events
  import opened SdlDevice

  /** createDevice's packing of its arguments: the fields it names are set
      (bits cut to a u8 by the `(u8)` cast), every other field keeps the
      value the parameter struct's constructor gave it, here `defaults`. */
  function PackParameters(defaults: CreationParameters, driverType: int, windowSize: Dimension,
                          bits: u32, fullscreen: bool, stencilbuffer: bool, vsync: bool,
                          receiver: Option<ReceiverRef>): (p: CreationParameters)
    ensures p.driverType == driverType && p.windowSize == windowSize
    ensures p.bits == bits % 0x100 && (bits < 0x100 ==> p.bits == bits)
    ensures p.fullscreen == fullscreen && p.stencilbuffer == stencilbuffer && p.vsync == vsync
    ensures p.eventReceiver == receiver
    ensures p.(driverType := defaults.driverType, windowSize := defaults.windowSize, bits := defaults.bits,
               fullscreen := defaults.fullscreen, stencilbuffer := defaults.stencilbuffer,
               vsync := defaults.vsync, eventReceiver := defaults.eventReceiver) == defaults
  {
    defaults.(driverType := driverType, windowSize := windowSize, bits := ToU8(bits),
              fullscreen := fullscreen, stencilbuffer := stencilbuffer, vsync := vsync,
              eventReceiver := receiver)
  }

  /** What createDeviceEx does with a device that has no driver before
      dropping it: close it, then run it once; the run sees the close flag
      before any event and returns false without posting anything. */
  method CloseAndRun(dev: Device, pending: seq<HostEvent>) returns (running: bool)
    requires dev.Valid() && dev.activeJoysticks == []
    modifies dev
    ensures dev.close && !running
    ensures dev.posted == old(dev.posted) && dev.videoDriver == old(dev.videoDriver)
  {
    dev.CloseDevice();
    var consumed;
    running, consumed := dev.Run(pending, []);
  }

  /** createDeviceEx. The device is built; one without a video driver is
      closed, run once and dropped, and null is returned. `built` is the
      device constructed either way, `ranOn` what that run returned when it
      happened; SDL's answers and the build configuration are inputs, and
      `pending` the host events queued when the failing device runs. */
  method CreateDeviceEx(params: CreationParameters, config: BuildConfig, host: HostWindow, factoryOk: bool,
                        pending: seq<HostEvent>)
    returns (dev: Device?, ghost built: Device, ghost ranOn: bool)
    ensures fresh(built)
    ensures dev == null <==> !ConstructedWithDriver(params, config, host, factoryOk)
    ensures dev != null ==>
      (dev == built && dev.Valid() && !dev.close &&
       dev.creationParams == params && dev.posted == [] &&
       dev.videoDriver == CreateDriver(params, config, factoryOk).driver)
    ensures dev == null ==> built.close && !ranOn && built.posted == [] && built.videoDriver == None
  {
    dev := new Device(params, config, host, factoryOk);
    built := dev;
    ranOn := true;
    if dev.videoDriver.None? {
      ranOn := CloseAndRun(dev, pending);
      dev := null;
    }
  }

  /** createDevice: the arguments packed as by PackParameters, then
      createDeviceEx. */
  method CreateDevice(defaults: CreationParameters, driverType: int, windowSize: Dimension,
                      bits: u32, fullscreen: bool, stencilbuffer: bool, vsync: bool,
                      receiver: Option<ReceiverRef>,
                      config: BuildConfig, host: HostWindow, factoryOk: bool, pending: seq<HostEvent>)
    returns (dev: Device?)
    ensures var p := PackParameters(defaults, driverType, windowSize, bits, fullscreen, stencilbuffer, vsync, receiver);
      (dev == null <==> !ConstructedWithDriver(p, config, host, factoryOk)) &&
      (dev != null ==> fresh(dev) && dev.Valid() && !dev.close && dev.creationParams == p)
  {
    var p := defaults;
    p := p.(driverType := driverType);
    p := p.(windowSize := windowSize);
    p := p.(bits := ToU8(bits));
    p := p.(fullscreen := fullscreen);
    p := p.(stencilbuffer := stencilbuffer);
    p := p.(vsync := vsync);
    p := p.(eventReceiver := receiver);
    ghost var built, ranOn;
    dev, built, ranOn := CreateDeviceEx(p, config, host, factoryOk, pending);
  }
}
