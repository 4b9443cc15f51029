/**
  Kernel vocabulary shared by the three drivers: bytes, and the Linux
  errno values whose negations the drivers return.
*/
module KernelTypes {

  type byte = bv8

  const EAGAIN: int := 11
  const ENOMEM: int := 12
  const EFAULT: int := 14
  const EINVAL: int := 22
}
