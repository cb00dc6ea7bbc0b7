/**
 * Types, constants and errors shared by every stage of the context bootstrap:
 * Java's 32-bit `int`, the `VkResult` success code, queue-flag bits, the
 * extension and layer names the bootstrap requests, the caller's
 * configuration and the error taxonomy.
 */
module Vulkan {

  /** Java's `int`: the width of ranks, result codes and flag words. */
  newtype int32 = x: int | -0x8000_0000 <= x < 0x8000_0000

  const INT32_MIN: int32 := -0x8000_0000

  /** A `VkResult` code; the bootstrap only ever distinguishes `SUCCESS`. */
  type VkResult = int32

  const SUCCESS: VkResult := 0

  /**
   * A `VkQueueFlags` word. The bit values are those of `VkQueueFlagBits`,
   * section 5.3.1 ("Queue Family Properties") of the Vulkan specification.
   */
  type QueueFlags = bv32

  const QUEUE_GRAPHICS: QueueFlags := 0x1
  const QUEUE_COMPUTE: QueueFlags := 0x2
  const QUEUE_TRANSFER: QueueFlags := 0x4

  /** A non-null native handle, as returned by a successful driver call. */
  type Handle = nat

  const VALIDATION_LAYER_NAME: string := "VK_LAYER_KHRONOS_validation"

  const EXT_DEBUG_UTILS: string := "VK_EXT_debug_utils"
  const KHR_GET_PHYSICAL_DEVICE_PROPERTIES_2: string := "VK_KHR_get_physical_device_properties2"
  const KHR_SWAPCHAIN: string := "VK_KHR_swapchain"
  const KHR_DYNAMIC_RENDERING: string := "VK_KHR_dynamic_rendering"
  const KHR_PUSH_DESCRIPTOR: string := "VK_KHR_push_descriptor"
  const KHR_DEPTH_STENCIL_RESOLVE: string := "VK_KHR_depth_stencil_resolve"
  const KHR_CREATE_RENDERPASS_2: string := "VK_KHR_create_renderpass2"
  const KHR_MULTIVIEW: string := "VK_KHR_multiview"
  const KHR_MAINTENANCE_2: string := "VK_KHR_maintenance2"
  const EXT_HOST_IMAGE_COPY: string := "VK_EXT_host_image_copy"
  const KHR_COPY_COMMANDS_2: string := "VK_KHR_copy_commands2"
  const KHR_FORMAT_FEATURE_FLAGS_2: string := "VK_KHR_format_feature_flags2"

  datatype PhysicalDeviceType = Other | IntegratedGpu | DiscreteGpu | VirtualGpu | Cpu

  /** The static properties the caller's ranker sees for one enumerated device. */
  datatype DeviceProperties = DeviceProperties(
    vendorId: nat,
    deviceId: nat,
    deviceType: PhysicalDeviceType,
    apiVersion: nat,
    deviceName: string)

  /** The caller's configuration; read-only during initialization. */
  datatype RenderConfig = RenderConfig(
    appName: string,
    additionalInstanceExtensions: seq<string>,
    additionalDeviceExtensions: seq<string>,
    enableAnisotropicFiltering: bool,
    enableHostCopy: bool,
    noTransferQueue: bool,
    noComputeQueue: bool,
    physicalDeviceRanker: DeviceProperties -> int32)

  /**
   * Which queue-role rules are applied: `AsWritten` is the bootstrap as it
   * stands; `Corrected` repairs the two defects listed in the README
   * (the presentation query and the queue-create deduplication).
   */
  datatype Build = AsWritten | Corrected

  /** The driver call a `VulkanError` comes from. */
  datatype Operation =
    | CreatingInstance
    | CreatingSurface
    | EnumeratingPhysicalDevices
    | CreatingDevice

  /** The policy failures reported without a driver status code. */
  datatype Reason =
    | NoGlfwInstanceExtensions
    | NoPhysicalDevice
    | NoSuitablePhysicalDevice
    | NoGraphicsQueueFamily
    | NoPresentQueueFamily

  /** Every way initialization can fail. */
  datatype InitError =
      /** `VulkanException`: a driver call returned a code other than `SUCCESS`. */
    | VulkanError(code: VkResult, operation: Operation)
      /** `RenderException`: a policy failure. */
    | RenderError(reason: Reason)
      /** The `RuntimeException` thrown when the allocator cannot be created. */
    | AllocatorError(code: VkResult)
      /** A queue handle read back as null, which `Objects.requireNonNull` rejects. */
    | NullQueueHandle(family: nat)
}
