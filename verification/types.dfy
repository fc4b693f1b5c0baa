/** The shapes of the two entities the client holds (src/types/index.d.ts)
    and of a browser `File` as the upload code reads it. */
module Types {
  import opened Js

  /** The session user. `idUsuario` and `fotoPerfilS3` are optional; `saldo`
      is the balance as the server last confirmed it. */
  datatype User = User(
    idUsuario: Option<int>,
    username: string,
    nombreCompleto: string,
    saldo: real,
    fotoPerfilS3: Option<string>)

  /** An artwork price as `Number(precio)` reads it: a number, or NaN for a
      non-numeric value. */
  datatype Price = Amount(value: real) | NotANumber

  /** A catalogue entry; `disponible` is false once the piece is sold. */
  datatype Artwork = Artwork(
    idObra: int,
    titulo: string,
    autorNombre: string,
    anioPublicacion: int,
    precio: Price,
    imagenS3: string,
    disponible: bool)

  /** The parts of a browser `File` the client reads: its name, its MIME type
      and its size in bytes. */
  datatype FileInfo = FileInfo(name: string, mimeType: string, size: nat)
}
