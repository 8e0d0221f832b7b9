/** The colour names the interface gives to status chips (`success`, `warning`,
    `error`, `info`, `default`). */
module Chip {

  datatype ChipColor = Success | Warning | Error | Info | Default
}
