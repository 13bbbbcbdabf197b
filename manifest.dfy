/** The clip manifest shared by the trainer and the admin editor: an ordered
    list of clip records, each with an optional Drive Impact instant. */
module Manifest {

  datatype Option<+T> = None | Some(value: T)

  /** One clip record. `driveImpactTime` is in seconds of media time;
      `None` (JSON `null`) marks a clip on which the user must not react. */
  datatype Sequence = Sequence(id: string, src: string, driveImpactTime: Option<real>)
}
