// What both ends of a connection agree on.
module Network {
  // The most bytes one read delivers.
  const TCP_PACK_SIZE := 1500
}
