/** What several parts of the kernel share: optional values, error codes and the machine's sizes
    (include/geekos/errno.h, include/x86/arch/mem.h). */
module Common {
  datatype Option<T> = None | Some(value: T)

  const ENOTDIR := -3
  const EINVAL := -4

  const PAGE_SIZE := 4096

  /** One more than the greatest 32-bit unsigned number. */
  const U32 := 0x1_0000_0000
}
