/**
 * Shared vocabulary: opaque handles and the exceptions the engine throws,
 * modelled as the error half of a `Result`.
 */
module Common {
  import opened VkResults

  /** An opaque Vulkan, VMA or GLFW handle; `NULL` stands for `VK_NULL_HANDLE`/`nullptr`. */
  type Handle = nat
  const NULL: Handle := 0

  /** The largest value of a `uint32_t`. */
  const UINT32_MAX: nat := 0xFFFF_FFFF
  predicate IsU32(x: int) { 0 <= x <= UINT32_MAX }

  datatype Error =
    /** `engine::Exception` / `std::runtime_error` with its message. */
    | Exception(message: string)
    /** `GlfwException`, carrying the GLFW error code. */
    | GlfwException(code: int)
    /** The engine's own `VulkanException`, carrying the offending result. */
    | VulkanException(result: VkResult)
    /** `GlfwException` built from a message alone. */
    | GlfwMessage(message: string)
    /** `vk::SystemError`, thrown by the C++ bindings themselves when a call fails. */
    | VulkanHppError(result: VkResult)

  /**
   * The three revisions of the backend: engine/src/backend, render/src and
   * render/src/backend.
   */
  datatype Revision = Engine | Render | RenderBackend

  datatype Result<T> = Ok(value: T) | Err(error: Error)
}
