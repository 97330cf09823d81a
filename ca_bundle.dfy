/**
 * Splitting a concatenated bundle of PEM certificates (the certificate
 * authorities file of a secure endpoint) into one text per certificate.
 *
 * The endpoint cuts the bundle at the LAST "-----BEGIN CERTIFICATE-----"
 * encapsulation boundary (section 2 of RFC 7468, with the CERTIFICATE label
 * of its section 5), keeps the cut-off tail as one certificate, and repeats
 * on the text before the cut until only blank text is left. The resulting
 * list is therefore in reverse file order.
 */
module CaBundle {

  /** The pre-encapsulation boundary of a certificate. */
  const Marker: string := "-----BEGIN CERTIFICATE-----"

  /** The characters JavaScript's `String.prototype.trim` removes (white space and line terminators). */
  predicate IsTrimmed(c: char)
  {
    || c == '\t' || c == '\n' || c == '\U{000B}' || c == '\U{000C}' || c == '\r' || c == ' '
    || c == '\U{00A0}' || c == '\U{1680}' || ('\U{2000}' <= c <= '\U{200A}')
    || c == '\U{2028}' || c == '\U{2029}' || c == '\U{202F}' || c == '\U{205F}'
    || c == '\U{3000}' || c == '\U{FEFF}'
  }

  /** `t.trim().length == 0`. */
  predicate Blank(t: string)
  {
    forall i :: 0 <= i < |t| ==> IsTrimmed(t[i])
  }

  /** `p` occurs in `t` starting at index `i`. */
  predicate OccursAt(t: string, p: string, i: int)
  {
    0 <= i && i + |p| <= |t| && t[i..i + |p|] == p
  }

  /** The last start index of `p` in `t` that is at most `from`, or -1. */
  function LastIndexFrom(t: string, p: string, from: int): (r: int)
    ensures r == -1 || (0 <= r <= from && OccursAt(t, p, r))
    ensures forall j :: r < j <= from && OccursAt(t, p, j) ==> false
    decreases from + 1
  {
    if from < 0 then -1
    else if OccursAt(t, p, from) then from
    else LastIndexFrom(t, p, from - 1)
  }

  /** JavaScript's `t.lastIndexOf(p)`: the start of the last occurrence, or -1 when there is none. */
  function LastIndexOf(t: string, p: string): (r: int)
    ensures r == -1 || OccursAt(t, p, r)
    ensures forall j :: OccursAt(t, p, j) ==> j <= r
  {
    LastIndexFrom(t, p, |t| - |p|)
  }

  /** The text left over once every certificate has been cut off: the text before the first boundary. */
  function Remainder(t: string): string
    decreases |t|
  {
    var i := LastIndexOf(t, Marker);
    if i == -1 then t else Remainder(t[..i])
  }

  /**
   * The loop as written stops exactly when what is left over is blank: a
   * non-blank text with no boundary in it is never shortened again.
   */
  ghost predicate SplitTerminates(t: string)
  {
    Blank(Remainder(t))
  }

  /** The certificates cut from `t`, last certificate of the file first. */
  function Certificates(t: string): seq<string>
    decreases |t|
  {
    if Blank(t) then []
    else
      var i := LastIndexOf(t, Marker);
      if i == -1 then [] else [t[i..]] + Certificates(t[..i])
  }

  /** The certificates put back in file order and joined. */
  function Joined(blocks: seq<string>): string
  {
    if blocks == [] then "" else Joined(blocks[1..]) + blocks[0]
  }

  /**
   * Each piece is one certificate: it begins with the boundary and contains
   * no second boundary.
   */
  lemma {:induction false} CertificatesAreSingleBlocks(t: string)
    ensures forall b :: b in Certificates(t) ==> OccursAt(b, Marker, 0) && LastIndexOf(b, Marker) == 0
    decreases |t|
  {
    if !Blank(t) {
      var i := LastIndexOf(t, Marker);
      if i != -1 {
        var b := t[i..];
        assert OccursAt(b, Marker, 0) by {
          assert b[..|Marker|] == t[i..i + |Marker|];
        }
        forall j | OccursAt(b, Marker, j) ensures j <= 0 {
          assert t[i + j..i + j + |Marker|] == b[j..j + |Marker|];
          assert OccursAt(t, Marker, i + j);
        }
        CertificatesAreSingleBlocks(t[..i]);
      }
    }
  }

  /** A text holding a boundary is not blank. */
  lemma BoundaryIsNotBlank(t: string, i: int)
    requires OccursAt(t, Marker, i)
    ensures !Blank(t)
  {
    assert t[i] == t[i..i + |Marker|][0] == Marker[0];
    assert !IsTrimmed(t[i]);
  }

  /** One step of `Joined`: the first block goes last. */
  lemma JoinedCons(b: string, rest: seq<string>)
    ensures Joined([b] + rest) == Joined(rest) + b
  {
    assert ([b] + rest)[1..] == rest;
  }

  /** Cutting one more block off the end keeps the reassembly. */
  lemma ReassembleStep(head: string, tail: string, prefix: string, rest: seq<string>)
    requires head == prefix + Joined(rest)
    ensures head + tail == prefix + Joined([tail] + rest)
  {
    JoinedCons(tail, rest);
  }

  /**
   * Nothing is lost or reordered: the bundle is the text before its first
   * boundary followed by the certificates in file order.
   */
  lemma {:induction false} CertificatesReassemble(t: string)
    ensures t == Remainder(t) + Joined(Certificates(t))
    decreases |t|
  {
    var i := LastIndexOf(t, Marker);
    if i == -1 {
      assert Remainder(t) == t;
      assert Certificates(t) == [];
    } else {
      BoundaryIsNotBlank(t, i);
      var head, tail := t[..i], t[i..];
      CertificatesReassemble(head);
      assert Remainder(t) == Remainder(head);
      assert Certificates(t) == [tail] + Certificates(head);
      ReassembleStep(head, tail, Remainder(head), Certificates(head));
      assert t == head + tail;
    }
  }

  /**
   * The splitting loop of `open` as written: it shortens the text only when it
   * finds a boundary, so it returns only on bundles for which `SplitTerminates`
   * holds and spins forever on any other.
   */
  method SplitCaBundleAsWritten(text: string) returns (ca: seq<string>)
    requires SplitTerminates(text)
    ensures ca == Certificates(text)
  {
    var caText := text;
    ca := [];
    while !Blank(caText)
      invariant SplitTerminates(caText)
      invariant ca + Certificates(caText) == Certificates(text)
      decreases |caText|
    {
      var crtIndex := LastIndexOf(caText, Marker);
      if crtIndex > -1 {
        ca := ca + [caText[crtIndex..]];
        caText := caText[..crtIndex];
      } else {
        assert false;
      }
    }
  }

  /**
   * A bundle with a comment line before its first certificate, as CA bundles
   * commonly have, is one on which the loop as written never returns: the
   * comment is non-blank and holds no boundary.
   */
  lemma HeaderedBundleNeverTerminates()
    ensures var bundle := "# CA\n" + Marker + "\n";
      && LastIndexOf(Remainder(bundle), Marker) == -1
      && !SplitTerminates(bundle)
  {
    var bundle := "# CA\n" + Marker + "\n";
    assert !OccursAt(bundle, Marker, 6) by {
      assert bundle[6 + 5] != Marker[5];
    }
    assert OccursAt(bundle, Marker, 5) by {
      assert bundle[5..5 + |Marker|] == Marker;
    }
    assert LastIndexOf(bundle, Marker) == 5;
    assert bundle[..5] == "# CA\n";
    assert LastIndexOf("# CA\n", Marker) == -1;
    assert !IsTrimmed(bundle[0]);
  }

  /**
   * The splitting loop with the evidently intended stop: when no boundary is
   * left, the text before the first certificate is dropped. It returns on every
   * bundle, and on every bundle the loop as written accepts it returns the same
   * certificates.
   */
  method SplitCaBundle(text: string) returns (ca: seq<string>)
    ensures ca == Certificates(text)
  {
    var caText := text;
    ca := [];
    while !Blank(caText)
      invariant ca + Certificates(caText) == Certificates(text)
      decreases |caText|
    {
      var crtIndex := LastIndexOf(caText, Marker);
      if crtIndex == -1 {
        break;
      }
      ca := ca + [caText[crtIndex..]];
      caText := caText[..crtIndex];
    }
  }
}
