/** Names shared by every part of the model.

  Paths and device files are datatypes, not strings, so that `filepath.Join`, `Dir` and `Base`
  become constructors and projections. A swift-id is assumed to be one clean path component.
 */
module Names {
  datatype Option<+T> = None | Some(value: T)

  /** Where something is mounted: `/srv/node/<id>`, `/run/swift-storage/<driveId>`, or anywhere else, which may be
    deeper below `/srv/node`. */
  datatype Path = SrvNode(id: string) | RunTemp(driveId: string) | Elsewhere(name: string)

  /** Below `/srv/node`, at any depth. */
  predicate UnderSrvNode(path: Path) {
    path.SrvNode? || (path.Elsewhere? && "/srv/node/" <= path.name)
  }

  /** A device file: a whole disk, or `/dev/mapper/<name>`. */
  datatype DevPath = Disk(name: string) | Mapper(name: string)

  datatype Scope = Host | Local

  datatype Mode = OneNamespace | Connected | Separate

  datatype Mount = Mount(dev: DevPath, path: Path, ro: bool)
}
