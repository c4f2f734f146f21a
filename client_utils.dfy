/**
 * Client-side date helper (frontend/src/utils.ts).
 *
 * `dateToIso(date)` takes `date.toISOString()` and keeps what comes before
 * the first 'T'. The timestamp itself is produced by the JavaScript runtime;
 * here it is the input string.
 */
module ClientUtils {
  import opened Strings

  /** `iso.split('T')[0]`: the calendar-date part of an ISO timestamp. */
  function DateToIso(iso: string): (date: string)
    ensures date <= iso
    ensures 'T' !in date
    ensures |date| < |iso| ==> iso[|date|] == 'T'
  {
    SplitFirstPiece(iso, 'T');
    Split(iso, 'T')[0]
  }

  /** For a timestamp "<date>T<time>" the helper gives back exactly the date part. */
  lemma DateToIsoOfTimestamp(date: string, time: string)
    requires 'T' !in date
    ensures DateToIso(date + "T" + time) == date
  {
    SplitAtFirst(date, 'T', time);
  }
}
