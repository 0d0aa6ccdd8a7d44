/** Field constraints and defaults of backend/app/models/pin.py, and the
    stored row of the `pins` table. */
module PinModels {
  import opened Common

  const TitleMinLength: nat := 1
  const TitleMaxLength: nat := 100
  const CaptionMaxLength: nat := 200

  datatype PinStatus = Draft | Active | Paused | Archived | Reported

  function PinStatusName(s: PinStatus): string
  {
    match s
    case Draft => "draft"
    case Active => "active"
    case Paused => "paused"
    case Archived => "archived"
    case Reported => "reported"
  }

  /** The `status` pattern of PinUpdate, `^(draft|active|paused|archived|reported)$`. */
  function ParsePinStatus(s: string): (r: Option<PinStatus>)
    ensures r.Some? <==> s in {"draft", "active", "paused", "archived", "reported"}
    ensures r.Some? ==> PinStatusName(r.value) == s
  {
    if s == "draft" then Some(Draft)
    else if s == "active" then Some(Active)
    else if s == "paused" then Some(Paused)
    else if s == "archived" then Some(Archived)
    else if s == "reported" then Some(Reported)
    else None
  }

  lemma PinStatusNameRoundTrip(s: PinStatus)
    ensures ParsePinStatus(PinStatusName(s)) == Some(s)
  {
  }

  /** PinMetadata: every part is optional. */
  datatype PinMetadata = PinMetadata(
    hours: Option<map<string, string>>,
    contact: Option<map<string, string>>,
    location: Option<map<string, string>>,
    tags: Option<seq<string>>,
    website: Option<string>)

  const EmptyMetadata := PinMetadata(None, None, None, None, None)

  /** PinBase / PinCreate. */
  datatype PinCreate = PinCreate(
    boardId: Uuid,
    title: string,
    caption: Option<string>,
    imageUrl: string,
    thumbnailUrl: Option<string>,
    metadata: Option<PinMetadata>,
    featured: bool)

  predicate ValidTitle(title: string)
  {
    TitleMinLength <= |title| <= TitleMaxLength
  }

  predicate ValidCaption(caption: Option<string>)
  {
    caption.Some? ==> |caption.value| <= CaptionMaxLength
  }

  /** The length constraints of PinBase. */
  predicate ValidPinCreate(p: PinCreate)
  {
    ValidTitle(p.title) && ValidCaption(p.caption)
  }

  /** A PinCreate given only its required fields: no caption or thumbnail,
      an empty PinMetadata (its default factory) and `featured` false. */
  function PinCreateWithDefaults(boardId: Uuid, title: string, imageUrl: string)
    : (r: PinCreate)
    ensures !r.featured && r.caption.None? && r.thumbnailUrl.None?
    ensures r.metadata == Some(EmptyMetadata)
    ensures ValidTitle(title) ==> ValidPinCreate(r)
  {
    PinCreate(boardId, title, None, imageUrl, None, Some(EmptyMetadata), false)
  }

  /** PinUpdate: every field may be left unset.  `caption`, `thumbnail_url`
      and `metadata` may also be set to null explicitly. */
  datatype PinUpdate = PinUpdate(
    title: Patch<string>,
    caption: Patch<Option<string>>,
    imageUrl: Patch<string>,
    thumbnailUrl: Patch<Option<string>>,
    metadata: Patch<Option<PinMetadata>>,
    status: Patch<PinStatus>,
    featured: Patch<bool>)

  const NoPinChanges := PinUpdate(Unset, Unset, Unset, Unset, Unset, Unset, Unset)

  /** The length constraints of PinUpdate, checked only on the fields present. */
  predicate ValidPinUpdate(u: PinUpdate)
  {
    (u.title.Set? ==> ValidTitle(u.title.value))
    && (u.caption.Set? ==> ValidCaption(u.caption.value))
  }

  /** `model_dump(exclude_unset=True)` is empty. */
  predicate IsEmptyUpdate(u: PinUpdate)
  {
    u == NoPinChanges
  }

  /** A row of the `pins` table: the fields of Pin plus the columns the
      rotation and expiry code read. */
  datatype Pin = Pin(
    id: Uuid,
    userId: Uuid,
    boardId: Uuid,
    title: string,
    caption: Option<string>,
    imageUrl: string,
    thumbnailUrl: Option<string>,
    metadata: Option<PinMetadata>,
    featured: bool,
    status: PinStatus,
    viewCount: int,
    clickCount: int,
    createdAt: int,
    updatedAt: int,
    expiresAt: Option<int>,
    subscriptionId: Option<Uuid>,
    impressions24h: int,
    lastImpressionReset: Option<int>)

  predicate ValidPin(p: Pin)
  {
    ValidTitle(p.title) && ValidCaption(p.caption)
  }

  /** A Pin read from the fields of a PinCreate: status defaults to active and
      both counters to zero; columns the code never writes are empty. */
  function PinWithDefaults(id: Uuid, userId: Uuid, c: PinCreate, now: int): (r: Pin)
    ensures r.status == Active && r.viewCount == 0 && r.clickCount == 0
    ensures r.id == id && r.userId == userId && r.boardId == c.boardId
    ensures r.title == c.title && r.caption == c.caption && r.featured == c.featured
    ensures r.imageUrl == c.imageUrl && r.thumbnailUrl == c.thumbnailUrl && r.metadata == c.metadata
    ensures r.createdAt == now && r.updatedAt == now && r.expiresAt.None?
    ensures r.subscriptionId.None? && r.impressions24h == 0 && r.lastImpressionReset.None?
    ensures ValidPinCreate(c) ==> ValidPin(r)
  {
    Pin(id, userId, c.boardId, c.title, c.caption, c.imageUrl, c.thumbnailUrl,
        c.metadata, c.featured, Active, 0, 0, now, now, None, None, 0, None)
  }

  /** The row after `update(data)`: every field present in the request
      replaces the column, every other column is kept. */
  function ApplyPinUpdate(p: Pin, u: PinUpdate): (r: Pin)
    ensures IsEmptyUpdate(u) ==> r == p
    ensures r.id == p.id && r.userId == p.userId && r.boardId == p.boardId
    ensures r.viewCount == p.viewCount && r.clickCount == p.clickCount
    ensures r.title == (if u.title.Set? then u.title.value else p.title)
    ensures r.status == (if u.status.Set? then u.status.value else p.status)
    ensures r.caption == (if u.caption.Set? then u.caption.value else p.caption)
    ensures r.imageUrl == (if u.imageUrl.Set? then u.imageUrl.value else p.imageUrl)
    ensures r.thumbnailUrl == (if u.thumbnailUrl.Set? then u.thumbnailUrl.value else p.thumbnailUrl)
    ensures r.metadata == (if u.metadata.Set? then u.metadata.value else p.metadata)
    ensures r.featured == (if u.featured.Set? then u.featured.value else p.featured)
    ensures r.createdAt == p.createdAt && r.updatedAt == p.updatedAt && r.expiresAt == p.expiresAt
    ensures r.subscriptionId == p.subscriptionId && r.impressions24h == p.impressions24h
    ensures r.lastImpressionReset == p.lastImpressionReset
  {
    p.(title := Patched(u.title, p.title),
       caption := Patched(u.caption, p.caption),
       imageUrl := Patched(u.imageUrl, p.imageUrl),
       thumbnailUrl := Patched(u.thumbnailUrl, p.thumbnailUrl),
       metadata := Patched(u.metadata, p.metadata),
       status := Patched(u.status, p.status),
       featured := Patched(u.featured, p.featured))
  }

  /** A validated update keeps a valid pin valid. */
  lemma UpdateKeepsPinValid(p: Pin, u: PinUpdate)
    requires ValidPin(p) && ValidPinUpdate(u)
    ensures ValidPin(ApplyPinUpdate(p, u))
  {
  }
}
