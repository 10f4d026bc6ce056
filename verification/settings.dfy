/** The tier table of `SystemOptimizer.get_optimal_settings` (system_utils.py): from the
    detected hardware to the MediaPipe and camera settings the application runs with.
    Hardware probing is not modelled; the detected values are inputs. */
module Optimizer {
  import opened Wrappers

  /** The fields `get_optimal_settings` reads: `has_gpu`, `available_vram` (MB) and
      `cpu_cores`. */
  datatype Hardware = Hardware(hasGpu: bool, availableVram: int, cpuCores: int)

  datatype Settings = Settings(
    modelComplexity: int,
    smoothLandmarks: bool,
    minDetectionConfidence: real,
    minTrackingConfidence: real,
    cameraWidth: int,
    cameraHeight: int,
    cameraFps: int,
    processEveryNFrames: int,
    description: string)

  /** `os.cpu_count() or 4`: an unknown count, or a reported count of zero (falsy in the
      source), becomes 4. */
  function CpuCores(reported: Option<int>): (n: int)
    ensures reported.None? ==> n == 4
    ensures reported.Some? ==> n == (if reported.value == 0 then 4 else reported.value)
    // a count that is unknown or not negative, as `os.cpu_count()` reports, gives at least one core
    ensures reported.None? || reported.value >= 0 ==> n >= 1
  {
    match reported
    case None => 4
    case Some(c) => if c == 0 then 4 else c
  }

  /** The state after `__init__` when hardware detection finds nothing: no GPU, no VRAM,
      and the defaulted core count. */
  function Undetected(reported: Option<int>): Hardware {
    Hardware(false, 0, CpuCores(reported))
  }

  /** `get_optimal_settings`. Every tier processes at least every fourth frame and uses
      the same confidence for detection and tracking. */
  function OptimalSettings(h: Hardware): (s: Settings)
    ensures 1 <= s.processEveryNFrames <= 4
    ensures 0 <= s.modelComplexity <= 2
    ensures s.minDetectionConfidence == s.minTrackingConfidence
    ensures 0.0 < s.minDetectionConfidence <= 0.5
  {
    if h.hasGpu && h.availableVram >= 2048 then
      Settings(2, true, 0.5, 0.5, 640, 480, 30, 1, "GPU Accelerated (High Quality)")
    else if h.hasGpu && h.availableVram >= 1024 then
      Settings(1, true, 0.5, 0.5, 640, 480, 30, 2, "GPU Accelerated (Balanced)")
    else if h.cpuCores >= 8 then
      Settings(1, true, 0.5, 0.5, 640, 480, 30, 2, "CPU Optimized (Multi-Core)")
    else if h.cpuCores >= 4 then
      Settings(1, false, 0.4, 0.4, 480, 360, 25, 3, "CPU Optimized (Balanced)")
    else
      Settings(0, false, 0.3, 0.3, 320, 240, 20, 4, "CPU Optimized (Low-End Performance Mode)")
  }

  /** The tier boundaries: which hardware gets which model complexity and frame skip. */
  lemma Tiers(h: Hardware)
    ensures h.hasGpu && h.availableVram >= 2048 <==>
      OptimalSettings(h).modelComplexity == 2
    ensures OptimalSettings(h).processEveryNFrames == 1 <==> h.hasGpu && h.availableVram >= 2048
    ensures h.hasGpu && 1024 <= h.availableVram < 2048 ==>
      OptimalSettings(h).modelComplexity == 1 && OptimalSettings(h).processEveryNFrames == 2
    ensures !(h.hasGpu && h.availableVram >= 1024) ==>
      OptimalSettings(h).processEveryNFrames == (if h.cpuCores >= 8 then 2 else if h.cpuCores >= 4 then 3 else 4)
    ensures OptimalSettings(h).modelComplexity == 0 <==>
      !(h.hasGpu && h.availableVram >= 1024) && h.cpuCores < 4
  {
  }

  /** Better hardware never processes fewer frames or uses a simpler model: gaining a GPU,
      VRAM or cores never raises the frame skip and never lowers the model complexity. */
  lemma BetterHardwareNeverDegrades(h1: Hardware, h2: Hardware)
    requires h1.hasGpu ==> h2.hasGpu
    requires h1.availableVram <= h2.availableVram
    requires h1.cpuCores <= h2.cpuCores
    ensures OptimalSettings(h2).processEveryNFrames <= OptimalSettings(h1).processEveryNFrames
    ensures OptimalSettings(h2).modelComplexity >= OptimalSettings(h1).modelComplexity
  {
  }

  /** Without a detected GPU, a machine whose core count is unknown runs the 4-core tier. */
  lemma UnknownCoresGetBalancedTier()
    ensures OptimalSettings(Undetected(None)).processEveryNFrames == 3
    ensures OptimalSettings(Undetected(None)).description == "CPU Optimized (Balanced)"
  {
  }
}
