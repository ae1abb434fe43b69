/** The error codes that the modelled operations return. */
module Errors {
  const CAP_DEVICE_INIT := 1
  const CAP_PROCESS_INIT := 35
  const CAP_PROCESS_OPEN := 37
  const CAP_PROCESS_OPEN_DIR := 38
  const CAP_NET_UNKNOW := 41
  const CAP_FIND_IP := 43
  const CAP_FIND_INODE := 44
}
